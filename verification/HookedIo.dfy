/** The loop of `do_io`: one call of a hooked function, with what the system and the other fibers do to it given by
    a script. What it does is recorded as a trace, and a trace is proved to be a path of the waiting protocol. */
module HookedIo {
  import opened Common

  const EINTR: nat := 4
  const EBADF: nat := 9
  const EAGAIN: nat := 11
  const ETIMEDOUT: nat := 110

  /** The return value of a system call, and `errno` after it. */
  datatype Reply = Reply(n: int, errno: nat)

  /** What the descriptor's context says; `timeout` is None for (uint64_t)-1. */
  datatype FdInfo = FdInfo(closed: bool, socket: bool, nonblock: bool, timeout: Option<nat>)

  /** One wait: whether `addEvent` succeeds (and `errno` if not), and whether a timer of this call has set the flag by
      the time the fiber runs again. */
  datatype Wait = Wait(ok: bool, errno: nat, flagged: bool)

  datatype Act =
    | Invoke(reply: Reply)
    | Arm
    | Register(ok: bool, errno: nat)
    | Suspend(flagged: bool)
    | Disarm(last: Option<Reply>)

  predicate Interrupted(r: Reply) {
    r.n == -1 && r.errno == EINTR
  }

  predicate WouldBlock(r: Reply) {
    r.n == -1 && r.errno == EAGAIN
  }

  /** The protocol: what may come after what. Disarming records what is returned right after it, if anything is. */
  predicate Follows(timed: bool, a: Act, b: Act) {
    match a
    case Invoke(r) =>
      if Interrupted(r) then b.Invoke?
      else if !WouldBlock(r) then false
      else if timed then b.Arm?
      else b.Register?
    case Arm => b.Register?
    case Register(ok, errno) =>
      if ok then b.Suspend? && (b.flagged ==> timed)
      else timed && b == Disarm(Some(Reply(-1, errno)))
    case Suspend(flagged) =>
      if timed then b == Disarm(if flagged then Some(Reply(-1, ETIMEDOUT)) else None)
      else b.Invoke?
    case Disarm(last) => last.None? && b.Invoke?
  }

  /** What is returned when the trace ends here. */
  function Answer(timed: bool, a: Act): Option<Reply> {
    match a
    case Invoke(r) => if Interrupted(r) || WouldBlock(r) then None else Some(r)
    case Register(ok, errno) => if !ok && !timed then Some(Reply(-1, errno)) else None
    case Disarm(last) => last
    case _ => None
  }

  predicate Path(timed: bool, trace: seq<Act>) {
    && trace != [] && trace[0].Invoke?
    && forall i :: 0 <= i < |trace| - 1 ==> Follows(timed, trace[i], trace[i + 1])
  }

  function Invoked(trace: seq<Act>): seq<Reply> {
    if trace == [] then []
    else Invoked(trace[..|trace| - 1]) + (if trace[|trace| - 1].Invoke? then [trace[|trace| - 1].reply] else [])
  }

  /** How often the call went to wait. */
  function Waits(trace: seq<Act>): nat {
    if trace == [] then 0 else Waits(trace[..|trace| - 1]) + if trace[|trace| - 1].Register? then 1 else 0
  }

  /** The k-th registration goes as the k-th wait says, and the suspension after it ends with the flag up exactly if
      the call has a timer and the wait says that one of this call has set it. */
  predicate Obeys(timed: bool, trace: seq<Act>, waits: seq<Wait>) {
    trace == [] ||
    (var before := trace[..|trace| - 1];
     var k := Waits(before);
     Obeys(timed, before, waits)
     && match trace[|trace| - 1]
        case Register(ok, errno) => k < |waits| && ok == waits[k].ok && errno == waits[k].errno
        case Suspend(flagged) => 0 < k <= |waits| && flagged == (timed && waits[k - 1].flagged)
        case _ => true)
  }

  /** Timers armed minus timers disarmed. */
  function Unbalanced(trace: seq<Act>): int {
    if trace == [] then 0
    else Unbalanced(trace[..|trace| - 1]) + match trace[|trace| - 1] { case Arm => 1 case Disarm(_) => -1 case _ => 0 }
  }

  lemma Grows(trace: seq<Act>, a: Act)
    ensures Invoked(trace + [a]) == Invoked(trace) + if a.Invoke? then [a.reply] else []
    ensures Waits(trace + [a]) == Waits(trace) + if a.Register? then 1 else 0
  {
    assert (trace + [a])[..|trace|] == trace;
  }

  lemma PathGrows(timed: bool, trace: seq<Act>, a: Act)
    requires Path(timed, trace) && Follows(timed, trace[|trace| - 1], a)
    ensures Path(timed, trace + [a])
    ensures Invoked(trace + [a]) == Invoked(trace) + if a.Invoke? then [a.reply] else []
    ensures Waits(trace + [a]) == Waits(trace) + if a.Register? then 1 else 0
  {
    Grows(trace, a);
  }

  // ---- what every path of the protocol has ----

  /** The timer a round armed is disarmed exactly once, before the next system call and before the call returns. */
  lemma {:induction false} EveryTimerDisarmed(timed: bool, trace: seq<Act>)
    requires Path(timed, trace)
    ensures Unbalanced(trace) ==
              if timed && (var a := trace[|trace| - 1]; a.Arm? || a.Register? || a.Suspend?) then 1 else 0
    decreases |trace|
  {
    var before := trace[..|trace| - 1];
    if before != [] {
      assert Follows(timed, trace[|trace| - 2], trace[|trace| - 1]);
      EveryTimerDisarmed(timed, before);
    }
  }

  function Blocked(rs: seq<Reply>): nat {
    if rs == [] then 0 else Blocked(rs[..|rs| - 1]) + if WouldBlock(rs[|rs| - 1]) then 1 else 0
  }

  /** The call waits once for every system call that would block, and for nothing else: an interrupted one is
      repeated at once. */
  lemma {:induction false} OneWaitPerBlock(timed: bool, trace: seq<Act>)
    requires Path(timed, trace)
    ensures var a := trace[|trace| - 1];
            Waits(trace) == Blocked(Invoked(trace)) - if a.Arm? || (a.Invoke? && WouldBlock(a.reply)) then 1 else 0
    decreases |trace|
  {
    var before := trace[..|trace| - 1];
    var a := trace[|trace| - 1];
    if a.Invoke? {
      assert Invoked(trace) == Invoked(before) + [a.reply];
      assert Invoked(trace)[..|Invoked(trace)| - 1] == Invoked(before);
    } else {
      assert Invoked(trace) == Invoked(before);
    }
    if before != [] {
      assert Follows(timed, trace[|trace| - 2], a);
      OneWaitPerBlock(timed, before);
    }
  }

  /** Once the flag is seen the call is over: nothing but the disarming comes after, the answer is ETIMEDOUT, and the
      call had armed a timer. */
  lemma FlagEndsTheCall(timed: bool, trace: seq<Act>, i: nat)
    requires Path(timed, trace) && i < |trace| && trace[i] == Suspend(true)
    ensures timed && i >= 2 && trace[i - 2] == Arm
    ensures |trace| <= i + 2
    ensures |trace| == i + 2 ==> Answer(timed, trace[i + 1]) == Some(Reply(-1, ETIMEDOUT))
  {
    assert Follows(timed, trace[i - 1], trace[i]);
    assert Follows(timed, trace[i - 2], trace[i - 1]);
    assert i + 1 < |trace| ==> Follows(timed, trace[i], trace[i + 1]);
    assert i + 2 < |trace| ==> Follows(timed, trace[i + 1], trace[i + 2]);
  }

  /** A returned answer is that of the last system call, or of a failed registration, or the timeout. */
  lemma AnswerComesFrom(timed: bool, trace: seq<Act>)
    requires Path(timed, trace) && Answer(timed, trace[|trace| - 1]).Some?
    ensures var r := Answer(timed, trace[|trace| - 1]).value;
            || (trace[|trace| - 1] == Invoke(r) && !Interrupted(r) && !WouldBlock(r))
            || (exists e :: Register(false, e) in trace && r == Reply(-1, e))
            || (Suspend(true) in trace && r == Reply(-1, ETIMEDOUT))
  {
    var n := |trace|;
    match trace[n - 1]
    case Register(ok, e) => assert Register(false, e) in trace;
    case Disarm(last) =>
      assert Follows(timed, trace[n - 2], trace[n - 1]);
      match trace[n - 2] {
        case Register(ok, e) => assert Register(false, e) in trace;
        case Suspend(flagged) => assert Suspend(true) in trace;
      }
    case Invoke(_) =>
  }

  /** Read at any place of the trace. */
  lemma {:induction false} ObeysAt(timed: bool, trace: seq<Act>, waits: seq<Wait>, i: nat)
    requires Obeys(timed, trace, waits) && i < |trace|
    ensures var k := Waits(trace[..i]);
            && (trace[i].Register? ==> k < |waits| && trace[i] == Register(waits[k].ok, waits[k].errno))
            && (trace[i].Suspend? ==> 0 < k <= |waits| && trace[i] == Suspend(timed && waits[k - 1].flagged))
    decreases |trace|
  {
    var before := trace[..|trace| - 1];
    if i < |before| {
      ObeysAt(timed, before, waits, i);
      assert before[..i] == trace[..i];
    } else {
      assert before == trace[..i];
    }
  }

  lemma ObeysOn(timed: bool, trace: seq<Act>, waits: seq<Wait>, a: Act)
    requires Obeys(timed, trace, waits)
    requires a.Register? ==> var k := Waits(trace); k < |waits| && a == Register(waits[k].ok, waits[k].errno)
    requires a.Suspend? ==> var k := Waits(trace); 0 < k <= |waits| && a == Suspend(timed && waits[k - 1].flagged)
    ensures Obeys(timed, trace + [a], waits)
  {
    assert (trace + [a])[..|trace|] == trace;
  }

  /** The wait ends the call: it was not registered, or a timer of the call has set the flag. */
  predicate EndsCall(timed: bool, w: Wait) {
    !w.ok || (timed && w.flagged)
  }

  /** `do_io`. The replies are those of the successive system calls, the waits what happens each time the call goes to
      wait; an empty result means that the script ended before the call did. */
  method DoIo(hooked: bool, info: Option<FdInfo>, first: Reply, replies: seq<Reply>, waits: seq<Wait>)
    returns (r: Option<Reply>, trace: seq<Act>)
    ensures !hooked || info.None? ==> r == Some(first) && trace == [Invoke(first)]
    ensures hooked && info.Some? && info.value.closed ==> r == Some(Reply(-1, EBADF)) && trace == []
    ensures hooked && info.Some? && !info.value.closed && (!info.value.socket || info.value.nonblock) ==>
              r == Some(first) && trace == [Invoke(first)]
    ensures hooked && info.Some? && !info.value.closed && info.value.socket && !info.value.nonblock ==>
              Run(info.value.timeout.Some?, [first] + replies, waits, r, trace)
  {
    if !hooked || info.None? {
      return Some(first), [Invoke(first)];
    }
    if info.value.closed {
      return Some(Reply(-1, EBADF)), [];
    }
    if !info.value.socket || info.value.nonblock {
      return Some(first), [Invoke(first)];
    }
    r, trace := WaitLoop(info.value.timeout.Some?, [first] + replies, waits);
  }

  /** The trace is a path over the replies and the waits of the script, in order; no wait but the last ended the call;
      and it ends with an answer, or at the end of what the script has. */
  predicate Run(timed: bool, replies: seq<Reply>, waits: seq<Wait>, r: Option<Reply>, trace: seq<Act>) {
    && Path(timed, trace) && Invoked(trace) <= replies
    && Waits(trace) <= |waits| && Obeys(timed, trace, waits)
    && (forall k :: 0 <= k < Waits(trace) - 1 ==> !EndsCall(timed, waits[k]))
    && r == Answer(timed, trace[|trace| - 1])
    && (Waits(trace) > 0 && EndsCall(timed, waits[Waits(trace) - 1]) ==>
          var w := waits[Waits(trace) - 1]; r == Some(Reply(-1, if w.ok then ETIMEDOUT else w.errno)))
    && (r.None? ==> Invoked(trace) == replies || (Waits(trace) == |waits| && trace[|trace| - 1].Invoke?))
  }

  /** After the replies up to `i` and the waits up to `j`, none of which ended the call. */
  predicate Going(timed: bool, replies: seq<Reply>, waits: seq<Wait>, i: nat, j: nat, trace: seq<Act>) {
    && i < |replies| && j <= |waits| && Path(timed, trace)
    && Invoked(trace) == replies[..i + 1] && Waits(trace) == j && Obeys(timed, trace, waits)
    && forall k :: 0 <= k < j ==> !EndsCall(timed, waits[k])
  }

  predicate MayInvoke(timed: bool, a: Act) {
    match a
    case Invoke(r) => Interrupted(r)
    case Suspend(_) => !timed
    case Disarm(last) => last.None?
    case _ => false
  }

  lemma RanOut(timed: bool, replies: seq<Reply>, waits: seq<Wait>, i: nat, j: nat, trace: seq<Act>)
    requires Going(timed, replies, waits, i, j, trace) && Answer(timed, trace[|trace| - 1]).None?
    requires i + 1 == |replies| || (j == |waits| && trace[|trace| - 1].Invoke?)
    ensures Run(timed, replies, waits, None, trace)
  {
    assert i + 1 == |replies| ==> replies[..i + 1] == replies;
  }

  lemma Ended(timed: bool, replies: seq<Reply>, waits: seq<Wait>, i: nat, j: nat, trace: seq<Act>)
    requires Going(timed, replies, waits, i, j, trace) && trace[|trace| - 1] == Invoke(replies[i])
    requires !Interrupted(replies[i]) && !WouldBlock(replies[i])
    ensures Run(timed, replies, waits, Some(replies[i]), trace)
  {
  }

  /** The j-th wait is over. */
  lemma Waited(timed: bool, replies: seq<Reply>, waits: seq<Wait>, i: nat, j: nat, before: seq<Act>, trace: seq<Act>)
    requires Going(timed, replies, waits, i, j, before) && j < |waits|
    requires Path(timed, trace) && Invoked(trace) == Invoked(before) && Waits(trace) == j + 1 && Obeys(timed, trace, waits)
    ensures !EndsCall(timed, waits[j]) ==> Going(timed, replies, waits, i, j + 1, trace)
    ensures var w := waits[j]; var r := Some(Reply(-1, if w.ok then ETIMEDOUT else w.errno));
            EndsCall(timed, w) && r == Answer(timed, trace[|trace| - 1]) ==> Run(timed, replies, waits, r, trace)
  {
  }

  /** The first system call and the loop after it. */
  method WaitLoop(timed: bool, replies: seq<Reply>, waits: seq<Wait>) returns (r: Option<Reply>, trace: seq<Act>)
    requires replies != []
    ensures Run(timed, replies, waits, r, trace)
  {
    var i, j := 0, 0;
    trace := CallFirst(timed, replies, waits);
    while replies[i].n == -1
      invariant Going(timed, replies, waits, i, j, trace) && trace[|trace| - 1] == Invoke(replies[i])
      decreases |replies| - i
    {
      if replies[i].errno == EINTR {
        if i + 1 == |replies| {
          RanOut(timed, replies, waits, i, j, trace);
          return None, trace;
        }
      } else if replies[i].errno == EAGAIN {
        if j == |waits| {
          RanOut(timed, replies, waits, i, j, trace);
          return None, trace;
        }
        var goOn;
        ghost var before := trace;
        r, trace, goOn := WaitOnce(timed, waits, j, waits[j], trace);
        Waited(timed, replies, waits, i, j, before, trace);
        j := j + 1;
        if !goOn {
          return;
        }
        if i + 1 == |replies| {
          RanOut(timed, replies, waits, i, j, trace);
          return None, trace;
        }
      } else {
        break;
      }
      trace := CallAgain(timed, replies, waits, i, j, trace);
      i := i + 1;
    }
    r := Some(replies[i]);
    Ended(timed, replies, waits, i, j, trace);
  }

  method CallFirst(timed: bool, replies: seq<Reply>, ghost waits: seq<Wait>) returns (trace: seq<Act>)
    requires replies != []
    ensures Going(timed, replies, waits, 0, 0, trace) && trace[|trace| - 1] == Invoke(replies[0])
  {
    trace := [Invoke(replies[0])];
    Grows([], Invoke(replies[0]));
    ObeysOn(timed, [], waits, Invoke(replies[0]));
    assert [] + [Invoke(replies[0])] == trace;
  }

  method CallAgain(timed: bool, replies: seq<Reply>, ghost waits: seq<Wait>, i: nat, ghost j: nat, before: seq<Act>)
    returns (trace: seq<Act>)
    requires Going(timed, replies, waits, i, j, before) && i + 1 < |replies| && MayInvoke(timed, before[|before| - 1])
    ensures Going(timed, replies, waits, i + 1, j, trace) && trace[|trace| - 1] == Invoke(replies[i + 1])
  {
    PathGrows(timed, before, Invoke(replies[i + 1]));
    ObeysOn(timed, before, waits, Invoke(replies[i + 1]));
    assert replies[..i + 2] == replies[..i + 1] + [replies[i + 1]];
    trace := before + [Invoke(replies[i + 1])];
  }

  /** One round of waiting, the j-th: arm, register, suspend, disarm. It goes on exactly if the wait does not end the
      call. */
  method WaitOnce(timed: bool, ghost waits: seq<Wait>, j: nat, w: Wait, before: seq<Act>)
    returns (r: Option<Reply>, trace: seq<Act>, goOn: bool)
    requires j < |waits| && w == waits[j] && Waits(before) == j && Obeys(timed, before, waits)
    requires Path(timed, before) && before[|before| - 1].Invoke? && WouldBlock(before[|before| - 1].reply)
    ensures Path(timed, trace) && Invoked(trace) == Invoked(before) && Waits(trace) == j + 1 && Obeys(timed, trace, waits)
    ensures goOn <==> w.ok && !(timed && w.flagged)
    ensures r == if goOn then None else Some(Reply(-1, if w.ok then ETIMEDOUT else w.errno))
    ensures r == Answer(timed, trace[|trace| - 1]) && (goOn ==> MayInvoke(timed, trace[|trace| - 1]))
  {
    trace := before;
    if timed {
      trace := Record(timed, waits, Arm, trace);
    }
    trace := Record(timed, waits, Register(w.ok, w.errno), trace);
    if !w.ok {
      r := Some(Reply(-1, w.errno));
      if timed {
        trace := Record(timed, waits, Disarm(r), trace);
      }
      return r, trace, false;
    }
    var flagged := w.flagged && timed;
    trace := Record(timed, waits, Suspend(flagged), trace);
    r := if flagged then Some(Reply(-1, ETIMEDOUT)) else None;
    if timed {
      trace := Record(timed, waits, Disarm(r), trace);
    }
    return r, trace, !flagged;
  }

  /** What the call does next, no system call, goes into the trace. */
  method Record(timed: bool, ghost waits: seq<Wait>, a: Act, before: seq<Act>) returns (trace: seq<Act>)
    requires Path(timed, before) && Follows(timed, before[|before| - 1], a) && !a.Invoke? && Obeys(timed, before, waits)
    requires a.Register? ==> var k := Waits(before); k < |waits| && a == Register(waits[k].ok, waits[k].errno)
    requires a.Suspend? ==> var k := Waits(before); 0 < k <= |waits| && a == Suspend(timed && waits[k - 1].flagged)
    ensures Path(timed, trace) && trace[|trace| - 1] == a && Obeys(timed, trace, waits)
    ensures Invoked(trace) == Invoked(before) && Waits(trace) == Waits(before) + if a.Register? then 1 else 0
  {
    PathGrows(timed, before, a);
    ObeysOn(timed, before, waits, a);
    trace := before + [a];
  }
}
