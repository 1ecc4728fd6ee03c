/** `delete_messages_after_delay`: a countdown that wakes every ten seconds,
    updates the warning message with the seconds left, and at the end tries
    to delete every message it was given.  The sleeps and bot calls are
    written to an event log. */
module Countdown {
  import opened Wrappers

  datatype Event =
    | Sleep(seconds: int)
    | StatusEdit(messageId: nat, remaining: int)
    | DeleteAttempt(messageId: nat)

  /** The seconds of one sleep: `min(10, remaining)`. */
  function TickLength(remaining: int): int {
    if remaining < 10 then remaining else 10
  }

  /** The events of the loop from the point where `remaining` seconds are
      left: a sleep, then (when there are messages) the edit of the last
      one showing the seconds left after the tick. */
  function Ticks(ids: seq<nat>, remaining: int): seq<Event>
    decreases remaining
  {
    if remaining <= 0 then []
    else
      [Sleep(TickLength(remaining))] +
      (if |ids| > 0 then [StatusEdit(ids[|ids| - 1], remaining - 10)] else []) +
      Ticks(ids, remaining - 10)
  }

  /** One delete attempt per message, in order. */
  function Deletes(ids: seq<nat>): (r: seq<Event>)
    ensures |r| == |ids| && forall i :: 0 <= i < |ids| ==> r[i] == DeleteAttempt(ids[i])
  {
    if |ids| == 0 then [] else [DeleteAttempt(ids[0])] + Deletes(ids[1..])
  }

  /** Everything an uncancelled run does. */
  function CountdownLog(ids: seq<nat>, delay: int): seq<Event> {
    Ticks(ids, delay) + Deletes(ids)
  }

  /** The number of loop iterations: `ceil(delay / 10)` for a positive delay. */
  function TickCount(delay: int): nat {
    if delay <= 0 then 0 else (delay + 9) / 10
  }

  /** The seconds slept over a log. */
  function Slept(log: seq<Event>): int {
    if |log| == 0 then 0
    else (if log[0].Sleep? then log[0].seconds else 0) + Slept(log[1..])
  }

  /** Whether the task is cancelled once `done` events have happened. */
  predicate CancelledAt(cancelAfter: Option<nat>, done: nat) {
    cancelAfter == Some(done)
  }

  /** The countdown.  `cancelAfter` is the number of events that complete
      before `cancel()` reaches the task, `None` when it never does; the
      `CancelledError` then ends the run, which is all that happens. */
  method DeleteMessagesAfterDelay(ids: seq<nat>, delay: int, cancelAfter: Option<nat>) returns (log: seq<Event>)
    ensures cancelAfter.None? ==> log == CountdownLog(ids, delay)
    ensures cancelAfter.Some? && cancelAfter.value <= |CountdownLog(ids, delay)| ==>
      log == CountdownLog(ids, delay)[..cancelAfter.value]
    ensures cancelAfter.Some? && cancelAfter.value > |CountdownLog(ids, delay)| ==> log == CountdownLog(ids, delay)
  {
    var cancelled;
    log, cancelled := RunTicks(ids, delay, cancelAfter);
    if cancelled {
      assert CountdownLog(ids, delay)[..|log|] == Ticks(ids, delay)[..|log|];
      return;
    }
    var deletes;
    deletes, cancelled := RunDeletes(ids, |log|, cancelAfter);
    assert CountdownLog(ids, delay)[..|log| + |deletes|] == log + deletes;
    log := log + deletes;
  }

  /** The `while remaining > 0` loop, up to the end or to the cancellation. */
  method RunTicks(ids: seq<nat>, delay: int, cancelAfter: Option<nat>) returns (log: seq<Event>, cancelled: bool)
    ensures cancelled ==>
      CancelledAt(cancelAfter, |log|) && |log| <= |Ticks(ids, delay)| && log == Ticks(ids, delay)[..|log|]
    ensures !cancelled ==> log == Ticks(ids, delay) && (cancelAfter.Some? ==> |log| <= cancelAfter.value)
  {
    log := [];
    var remaining := delay;
    while remaining > 0
      invariant log + Ticks(ids, remaining) == Ticks(ids, delay)
      invariant cancelAfter.Some? ==> |log| <= cancelAfter.value
      decreases remaining
    {
      if CancelledAt(cancelAfter, |log|) {
        PrefixOfConcat(log, Ticks(ids, remaining), Ticks(ids, delay));
        return log, true;
      }
      TickStep(ids, delay, remaining, log);
      var next := log + [Sleep(TickLength(remaining))];
      remaining := remaining - 10;
      if |ids| > 0 {
        if CancelledAt(cancelAfter, |next|) {
          PrefixOfConcat(next, [StatusEdit(ids[|ids| - 1], remaining)] + Ticks(ids, remaining), Ticks(ids, delay));
          return next, true;
        }
        log := next + [StatusEdit(ids[|ids| - 1], remaining)];
      } else {
        log := next;
      }
    }
    return log, false;
  }

  /** One iteration of the loop, seen from the log written so far. */
  lemma TickStep(ids: seq<nat>, delay: int, remaining: int, log: seq<Event>)
    requires remaining > 0 && log + Ticks(ids, remaining) == Ticks(ids, delay)
    ensures |ids| == 0 ==>
      (log + [Sleep(TickLength(remaining))]) + Ticks(ids, remaining - 10) == Ticks(ids, delay)
    ensures |ids| > 0 ==>
      (log + [Sleep(TickLength(remaining))]) +
      ([StatusEdit(ids[|ids| - 1], remaining - 10)] + Ticks(ids, remaining - 10)) == Ticks(ids, delay)
    ensures |ids| > 0 ==>
      ((log + [Sleep(TickLength(remaining))]) + [StatusEdit(ids[|ids| - 1], remaining - 10)]) +
      Ticks(ids, remaining - 10) == Ticks(ids, delay)
  {
  }

  lemma PrefixOfConcat(a: seq<Event>, b: seq<Event>, c: seq<Event>)
    requires a + b == c
    ensures |a| <= |c| && a == c[..|a|]
  {
    assert c[..|a|] == (a + b)[..|a|];
  }

  /** The `for msg_id in message_ids` loop once `done` events have happened. */
  method RunDeletes(ids: seq<nat>, done: nat, cancelAfter: Option<nat>) returns (log: seq<Event>, cancelled: bool)
    requires cancelAfter.Some? ==> done <= cancelAfter.value
    ensures cancelled ==> CancelledAt(cancelAfter, done + |log|) && |log| <= |ids| && log == Deletes(ids)[..|log|]
    ensures !cancelled ==> log == Deletes(ids) && (cancelAfter.Some? ==> done + |log| <= cancelAfter.value)
  {
    log := [];
    var i := 0;
    while i < |ids|
      invariant 0 <= i <= |ids| && |log| == i
      invariant forall k :: 0 <= k < i ==> log[k] == DeleteAttempt(ids[k])
      invariant cancelAfter.Some? ==> done + |log| <= cancelAfter.value
    {
      if CancelledAt(cancelAfter, done + |log|) {
        DeletesPrefix(ids, log);
        return log, true;
      }
      log := log + [DeleteAttempt(ids[i])];
      i := i + 1;
    }
    DeletesPrefix(ids, log);
    return log, false;
  }

  /** A log of delete attempts for the first messages, in order, is a prefix of `Deletes`. */
  lemma DeletesPrefix(ids: seq<nat>, log: seq<Event>)
    requires |log| <= |ids|
    requires forall k :: 0 <= k < |log| ==> log[k] == DeleteAttempt(ids[k])
    ensures log == Deletes(ids)[..|log|]
    ensures |log| == |ids| ==> log == Deletes(ids)
  {
  }

  // ---------------------------------------------------------------------------
  // Properties

  /** The loop runs `ceil(delay / 10)` times, each writing one sleep and,
      when there are messages, one status edit. */
  lemma {:induction false} TicksLength(ids: seq<nat>, delay: int)
    ensures |Ticks(ids, delay)| == (if |ids| > 0 then 2 else 1) * TickCount(delay)
    decreases delay
  {
    if delay > 0 {
      TicksLength(ids, delay - 10);
      assert TickCount(delay) == TickCount(delay - 10) + 1;
    }
  }

  /** The k-th tick (from 0) sleeps `min(10, delay - 10k)` and the status it
      writes to the last message shows `delay - 10(k + 1)`. */
  lemma {:induction false} TickAt(ids: seq<nat>, delay: int, k: nat)
    requires |ids| > 0 && k < TickCount(delay)
    ensures |Ticks(ids, delay)| == 2 * TickCount(delay)
    ensures Ticks(ids, delay)[2 * k] == Sleep(TickLength(delay - 10 * k))
    ensures Ticks(ids, delay)[2 * k + 1] == StatusEdit(ids[|ids| - 1], delay - 10 * (k + 1))
    decreases k
  {
    TicksLength(ids, delay);
    var head := [Sleep(TickLength(delay)), StatusEdit(ids[|ids| - 1], delay - 10)];
    assert Ticks(ids, delay) == head + Ticks(ids, delay - 10);
    if k > 0 {
      assert TickCount(delay - 10) == TickCount(delay) - 1;
      TickAt(ids, delay - 10, k - 1);
    }
  }

  /** Without messages to update, the loop only sleeps. */
  lemma {:induction false} NoStatusWithoutMessages(delay: int)
    ensures forall e :: e in Ticks([], delay) ==> e.Sleep?
    decreases delay
  {
    if delay > 0 {
      NoStatusWithoutMessages(delay - 10);
      assert Ticks([], delay) == [Sleep(TickLength(delay))] + Ticks([], delay - 10);
    }
  }

  /** The sleeps add up to the delay (nothing for a delay of 0 or less). */
  lemma {:induction false} SleepsAddUp(ids: seq<nat>, delay: int)
    ensures Slept(Ticks(ids, delay)) == if delay > 0 then delay else 0
    decreases delay
  {
    if delay > 0 {
      SleepsAddUp(ids, delay - 10);
      var rest := Ticks(ids, delay - 10);
      var t := Ticks(ids, delay);
      if |ids| > 0 {
        var s := StatusEdit(ids[|ids| - 1], delay - 10);
        assert t == [Sleep(TickLength(delay))] + ([s] + rest);
        assert ([s] + rest)[1..] == rest;
      } else {
        assert t == [Sleep(TickLength(delay))] + rest;
      }
    }
  }

  /** The loop writes no delete attempt. */
  lemma {:induction false} TicksDeleteNothing(ids: seq<nat>, delay: int)
    ensures forall e :: e in Ticks(ids, delay) ==> !e.DeleteAttempt?
    decreases delay
  {
    if delay > 0 {
      TicksDeleteNothing(ids, delay - 10);
    }
  }

  /** A run cancelled before the loop is over deletes nothing. */
  lemma CancelledDuringLoop(ids: seq<nat>, delay: int, n: nat)
    requires n <= |Ticks(ids, delay)|
    ensures forall e :: e in CountdownLog(ids, delay)[..n] ==> !e.DeleteAttempt?
  {
    TicksDeleteNothing(ids, delay);
    assert CountdownLog(ids, delay)[..n] == Ticks(ids, delay)[..n];
  }

  /** After the loop, every message gets its delete attempt, in order. */
  lemma DeletesFollowTicks(ids: seq<nat>, delay: int)
    ensures var log := CountdownLog(ids, delay);
      var n := |Ticks(ids, delay)|;
      |log| == n + |ids| && forall i :: 0 <= i < |ids| ==> log[n + i] == DeleteAttempt(ids[i])
  {
  }

  /** A 30-second countdown shows 20, 10 and 0. */
  lemma ThirtySeconds(warning: nat)
    ensures CountdownLog([warning], 30) ==
      [Sleep(10), StatusEdit(warning, 20), Sleep(10), StatusEdit(warning, 10),
       Sleep(10), StatusEdit(warning, 0), DeleteAttempt(warning)]
  {
    assert Ticks([warning], 0) == [];
    assert Ticks([warning], 10) == [Sleep(10), StatusEdit(warning, 0)];
    assert Ticks([warning], 20) == [Sleep(10), StatusEdit(warning, 10)] + Ticks([warning], 10);
  }

  /** A 25-second countdown shows 15, 5 and then -5, after a last sleep of 5. */
  lemma TwentyFiveSeconds(warning: nat)
    ensures CountdownLog([warning], 25) ==
      [Sleep(10), StatusEdit(warning, 15), Sleep(10), StatusEdit(warning, 5),
       Sleep(5), StatusEdit(warning, -5), DeleteAttempt(warning)]
  {
    assert Ticks([warning], -5) == [];
    assert Ticks([warning], 5) == [Sleep(5), StatusEdit(warning, -5)];
    assert Ticks([warning], 15) == [Sleep(10), StatusEdit(warning, 5)] + Ticks([warning], 5);
  }
}
