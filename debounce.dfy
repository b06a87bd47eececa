/**
 * NativoUtils.debounceAction: a time-gated wrapper around an action.  The returned closure
 * and its captured lastCall become a Debouncer object; the clock is the explicit `now`.
 * A call runs the action only when at least intervalMs have passed since the last call that
 * ran it; other calls are dropped, never queued.
 */
module Debounce {

  /** Consecutive accepted call times are at least `interval` apart. */
  ghost predicate Spaced(times: seq<int>, interval: int)
  {
    forall i :: 0 < i < |times| ==> times[i] - times[i - 1] >= interval
  }

  /** The call times, out of `calls`, at which a gate whose last accepted call was at `last` runs the action. */
  function Admitted(last: int, calls: seq<int>, interval: int): (r: seq<int>)
    ensures |r| <= |calls|
    ensures forall t :: t in r ==> t in calls
    decreases |calls|
  {
    if calls == [] then []
    else if calls[0] - last >= interval then [calls[0]] + Admitted(calls[0], calls[1..], interval)
    else Admitted(last, calls[1..], interval)
  }

  /** The last accepted call time after `calls`, starting from `last`. */
  function LastAdmitted(last: int, calls: seq<int>, interval: int): int
  {
    var r := Admitted(last, calls, interval);
    if r == [] then last else r[|r| - 1]
  }

  /** Accepting calls one at a time is the same as accepting them all at once. */
  lemma {:induction false} AdmittedSnoc(last: int, calls: seq<int>, now: int, interval: int)
    ensures Admitted(last, calls + [now], interval)
         == Admitted(last, calls, interval)
            + (if now - LastAdmitted(last, calls, interval) >= interval then [now] else [])
    decreases |calls|
  {
    if calls == [] {
      assert [now][1..] == [];
    } else {
      assert (calls + [now])[1..] == calls[1..] + [now];
      if calls[0] - last >= interval {
        AdmittedSnoc(calls[0], calls[1..], now, interval);
      } else {
        AdmittedSnoc(last, calls[1..], now, interval);
      }
    }
  }

  /** Every accepted call is at least `interval` after the previous one, the first at least `interval` after `last`. */
  lemma {:induction false} AdmittedIsSpaced(last: int, calls: seq<int>, interval: int)
    ensures Spaced(Admitted(last, calls, interval), interval)
    ensures Admitted(last, calls, interval) != [] ==> Admitted(last, calls, interval)[0] - last >= interval
    decreases |calls|
  {
    if calls != [] {
      if calls[0] - last >= interval {
        AdmittedIsSpaced(calls[0], calls[1..], interval);
        var rest := Admitted(calls[0], calls[1..], interval);
        assert Admitted(last, calls, interval) == [calls[0]] + rest;
      } else {
        AdmittedIsSpaced(last, calls[1..], interval);
      }
    }
  }

  /** With a non-negative interval, ANY two accepted calls are at least `interval` apart. */
  lemma {:induction false} SpacedPairwise(times: seq<int>, interval: int)
    requires interval >= 0 && Spaced(times, interval)
    ensures forall i, j :: 0 <= i < j < |times| ==> times[j] - times[i] >= interval
    decreases |times|
  {
    if |times| > 1 {
      var init := times[..|times| - 1];
      assert Spaced(init, interval) by {
        forall i | 0 < i < |init| ensures init[i] - init[i - 1] >= interval {
          assert init[i] == times[i] && init[i - 1] == times[i - 1];
        }
      }
      SpacedPairwise(init, interval);
      forall i, j | 0 <= i < j < |times| ensures times[j] - times[i] >= interval {
        if j < |times| - 1 {
          assert times[i] == init[i] && times[j] == init[j];
        } else if i < j - 1 {
          assert times[i] == init[i] && times[j - 1] == init[j - 1];
        }
      }
    }
  }

  /** Once a call inside the window has run the action, no later call inside that window runs it. */
  lemma {:induction false} NothingAdmittedAfterWindowStart(last: int, calls: seq<int>, interval: int, windowStart: int)
    requires last >= windowStart
    requires forall i :: 0 <= i < |calls| ==> windowStart <= calls[i] < windowStart + interval
    ensures Admitted(last, calls, interval) == []
    decreases |calls|
  {
    if calls != [] {
      NothingAdmittedAfterWindowStart(last, calls[1..], interval, windowStart);
    }
  }

  /** Any number of calls inside one window no longer than the interval run the action at most once. */
  lemma {:induction false} OneWindowRunsAtMostOnce(last: int, calls: seq<int>, interval: int, windowStart: int)
    requires forall i :: 0 <= i < |calls| ==> windowStart <= calls[i] < windowStart + interval
    ensures |Admitted(last, calls, interval)| <= 1
    decreases |calls|
  {
    if calls != [] {
      if calls[0] - last >= interval {
        NothingAdmittedAfterWindowStart(calls[0], calls[1..], interval, windowStart);
      } else {
        OneWindowRunsAtMostOnce(last, calls[1..], interval, windowStart);
      }
    }
  }

  class Debouncer {
    const intervalMs: int
    var lastCall: int
    /** Every call made so far, and the ones that ran the action. */
    ghost var calls: seq<int>
    ghost var admitted: seq<int>

    ghost predicate Valid()
      reads this
    {
      && admitted == Admitted(0, calls, intervalMs)
      && lastCall == LastAdmitted(0, calls, intervalMs)
      && Spaced(admitted, intervalMs)
    }

    constructor (intervalMs: int)
      ensures Valid() && this.intervalMs == intervalMs
      ensures lastCall == 0 && calls == [] && admitted == []
    {
      this.intervalMs := intervalMs;
      lastCall := 0;
      calls, admitted := [], [];
    }

    /** One invocation of the debounced closure at time `now`; `ran` tells whether the action ran. */
    method Call(now: int) returns (ran: bool)
      requires Valid()
      modifies this
      ensures Valid()
      ensures ran <==> now - old(lastCall) >= intervalMs
      ensures lastCall == if ran then now else old(lastCall)
      ensures calls == old(calls) + [now]
      ensures admitted == old(admitted) + (if ran then [now] else [])
    {
      var previous := lastCall;
      ran := now - previous >= intervalMs;
      AdmittedSnoc(0, calls, now, intervalMs);
      calls := calls + [now];
      if ran {
        lastCall := now;
        admitted := admitted + [now];
      }
      AdmittedIsSpaced(0, calls, intervalMs);
    }
  }
}
