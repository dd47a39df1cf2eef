/**
 * The sliding-window limiter of `hyukebox/utils/rate_limiter.py`. The clock
 * is abstracted: each call that reads `datetime.now()` takes the reading as
 * a parameter, an integer count of microseconds, and the `asyncio.sleep` is
 * left to the caller, which passes the clock reading taken after it.
 */
module RateLimiting {
  import opened Text

  /** One minute, in microseconds. */
  const Window := 60000000

  /** `[t for t in calls if t > cutoff]`. */
  function After(calls: seq<int>, cutoff: int): (kept: seq<int>)
    ensures |kept| <= |calls|
  {
    if calls == [] then []
    else
      var rest := After(calls[..|calls| - 1], cutoff);
      if calls[|calls| - 1] > cutoff then rest + [calls[|calls| - 1]] else rest
  }

  /** The calls still inside the window ending at `now`. */
  function Pruned(calls: seq<int>, now: int): seq<int> {
    After(calls, now - Window)
  }

  /** Every kept call is newer than the cutoff; exactly the newer calls are kept; none is added. */
  lemma {:induction false} AfterMembers(calls: seq<int>, cutoff: int)
    ensures |After(calls, cutoff)| <= |calls|
    ensures forall t :: t in After(calls, cutoff) <==> t in calls && t > cutoff
  {
    if calls != [] {
      var init := calls[..|calls| - 1];
      AfterMembers(init, cutoff);
      assert calls == init + [calls[|calls| - 1]];
    }
  }

  /** Filtering a concatenation filters each part in turn: the kept calls stay in their order. */
  lemma {:induction false} AfterAppend(xs: seq<int>, ys: seq<int>, cutoff: int)
    ensures After(xs + ys, cutoff) == After(xs, cutoff) + After(ys, cutoff)
    decreases |ys|
  {
    if ys == [] {
      assert xs + ys == xs;
    } else {
      var init := ys[..|ys| - 1];
      var last := ys[|ys| - 1];
      AfterAppend(xs, init, cutoff);
      assert (xs + ys)[..|xs + ys| - 1] == xs + init;
      assert (xs + ys)[|xs + ys| - 1] == last;
      if last > cutoff {
        ConcatAssoc(After(xs, cutoff), After(init, cutoff), [last]);
      }
    }
  }

  /** Pruning again with a later cutoff is pruning once with that cutoff. */
  lemma {:induction false} AfterTwice(calls: seq<int>, cutoff1: int, cutoff2: int)
    requires cutoff1 <= cutoff2
    ensures After(After(calls, cutoff1), cutoff2) == After(calls, cutoff2)
  {
    if calls != [] {
      var init := calls[..|calls| - 1];
      var last := calls[|calls| - 1];
      AfterTwice(init, cutoff1, cutoff2);
      if last > cutoff1 {
        AfterAppend(After(init, cutoff1), [last], cutoff2);
      }
    }
  }

  predicate Sorted(s: seq<int>) {
    forall i, j :: 0 <= i < j < |s| ==> s[i] <= s[j]
  }

  lemma {:induction false} AfterNone(calls: seq<int>, cutoff: int)
    requires forall i :: 0 <= i < |calls| ==> calls[i] <= cutoff
    ensures After(calls, cutoff) == []
  {
    if calls != [] {
      AfterNone(calls[..|calls| - 1], cutoff);
    }
  }

  /** On calls in time order, pruning drops a prefix: what is kept is the suffix of its own length. */
  lemma {:induction false} AfterSortedSuffix(calls: seq<int>, cutoff: int)
    requires Sorted(calls)
    ensures After(calls, cutoff) == calls[|calls| - |After(calls, cutoff)|..]
  {
    if calls == [] {
    } else {
      var init := calls[..|calls| - 1];
      var last := calls[|calls| - 1];
      assert calls == init + [last];
      if last > cutoff {
        assert Sorted(init) by {
          forall i, j | 0 <= i < j < |init| ensures init[i] <= init[j] {
            assert init[i] == calls[i] && init[j] == calls[j];
          }
        }
        AfterSortedSuffix(init, cutoff);
        var m := |After(init, cutoff)|;
        assert After(calls, cutoff) == init[|init| - m..] + [last];
        assert init[|init| - m..] + [last] == calls[|calls| - (m + 1)..];
      } else {
        assert forall i :: 0 <= i < |calls| ==> calls[i] <= cutoff by {
          forall i | 0 <= i < |calls| ensures calls[i] <= cutoff {
            if i < |calls| - 1 {
              assert calls[i] <= calls[|calls| - 1];
            }
          }
        }
        AfterNone(calls, cutoff);
      }
    }
  }

  /** `max(0, calls_per_minute - len(calls))`. */
  function Remaining(callsPerMinute: int, calls: seq<int>): (r: int)
    ensures 0 <= r
    ensures callsPerMinute >= 0 ==> r <= callsPerMinute
    ensures r == 0 <==> |calls| >= callsPerMinute
  {
    if callsPerMinute - |calls| > 0 then callsPerMinute - |calls| else 0
  }

  /** What `acquire` did. */
  datatype Acquired =
    | Immediate
      /** The limit was reached; `wait` is the computed wait (the sleep happens when it is positive). */
    | Waited(wait: int)
      /** The limit was reached with no call in the window (a limit of 0 or less): `self.calls[0]` raises. */
    | NoOldestCall

  /** The wait for a full window: one minute minus the oldest kept call's age. */
  function WaitFor(retained: seq<int>, now: int): int
    requires retained != []
  {
    Window - (now - retained[0])
  }

  /** What `acquire` does with the first clock reading `now`. */
  function AcquireOutcome(calls: seq<int>, callsPerMinute: int, now: int): Acquired {
    var retained := Pruned(calls, now);
    if |retained| < callsPerMinute then Immediate
    else if retained == [] then NoOldestCall
    else Waited(WaitFor(retained, now))
  }

  /** The calls `acquire` leaves behind. */
  function AcquireCalls(calls: seq<int>, callsPerMinute: int, now: int, later: int): seq<int> {
    var retained := Pruned(calls, now);
    if |retained| < callsPerMinute then retained + [now]
    else if retained == [] then retained
    else Pruned(retained, later) + [later]
  }

  /** The computed wait is always positive: the oldest kept call is less than a minute old. */
  lemma WaitPositive(calls: seq<int>, callsPerMinute: int, now: int)
    requires AcquireOutcome(calls, callsPerMinute, now).Waited?
    ensures AcquireOutcome(calls, callsPerMinute, now).wait > 0
  {
    var retained := Pruned(calls, now);
    AfterMembers(calls, now - Window);
    assert retained[0] in retained;
  }

  /**
   * Unless it raises, `acquire` ends with the current reading as the last
   * call, every other kept call inside the window of that reading.
   */
  lemma AcquireRecordsNow(calls: seq<int>, callsPerMinute: int, now: int, later: int)
    requires !AcquireOutcome(calls, callsPerMinute, now).NoOldestCall?
    ensures var c := AcquireCalls(calls, callsPerMinute, now, later);
      var t := if AcquireOutcome(calls, callsPerMinute, now).Immediate? then now else later;
      && |c| >= 1 && c[|c| - 1] == t
      && forall i :: 0 <= i < |c| - 1 ==> c[i] > t - Window
  {
    var retained := Pruned(calls, now);
    AfterMembers(calls, now - Window);
    if |retained| >= callsPerMinute {
      AfterMembers(retained, later - Window);
      var kept := Pruned(retained, later);
      assert forall i :: 0 <= i < |kept| ==> kept[i] in kept;
    } else {
      assert forall i :: 0 <= i < |retained| ==> retained[i] in retained;
    }
  }

  /**
   * For one caller at a time: with a limit of at least 1 and a caller that
   * sleeps the whole wait, the window never holds more calls than the limit.
   * Callers whose steps interleave are `Interleave`'s subject.
   */
  lemma AcquireKeepsLimit(calls: seq<int>, callsPerMinute: int, now: int, later: int)
    requires callsPerMinute >= 1 && |calls| <= callsPerMinute
    requires AcquireOutcome(calls, callsPerMinute, now).Waited? ==>
      later >= now + AcquireOutcome(calls, callsPerMinute, now).wait
    ensures |AcquireCalls(calls, callsPerMinute, now, later)| <= callsPerMinute
  {
    var retained := Pruned(calls, now);
    AfterMembers(calls, now - Window);
    if |retained| >= callsPerMinute {
      var oldest := retained[0];
      assert retained == [oldest] + retained[1..];
      AfterAppend([oldest], retained[1..], later - Window);
      assert After([oldest], later - Window) == [];
      AfterMembers(retained[1..], later - Window);
    }
  }

  /**
   * The part of `acquire` before the sleep: drop the calls older than a
   * minute, and record `now` when the window has room. When it is full the
   * caller sleeps and the call resumes with `FinishCalls`.
   */
  function BeginCalls(calls: seq<int>, callsPerMinute: int, now: int): seq<int> {
    var retained := Pruned(calls, now);
    if |retained| < callsPerMinute then retained + [now] else retained
  }

  /**
   * The part of `acquire` after the sleep, as written: drop the calls older
   * than a minute of `later` and record `later`, without looking at the
   * count again.
   */
  function FinishCalls(calls: seq<int>, later: int): seq<int> {
    Pruned(calls, later) + [later]
  }

  /**
   * The part after the sleep as evidently intended: check the window again
   * and record `later` only when it has room (otherwise wait once more).
   * That is the first part run again at the new reading.
   */
  function FinishCallsChecked(calls: seq<int>, callsPerMinute: int, later: int): seq<int> {
    BeginCalls(calls, callsPerMinute, later)
  }

  /**
   * One step of a shared limiter under `asyncio`: a caller entering
   * `acquire` at reading `now`, or a waiting caller waking at `later`.
   * Each step runs without interruption; steps of different callers interleave.
   */
  datatype Step = Begin(now: int) | Finish(later: int)

  /** The calls after the steps, in order, with `acquire` as written. */
  function Interleave(calls: seq<int>, callsPerMinute: int, steps: seq<Step>): seq<int>
    decreases |steps|
  {
    if steps == [] then calls
    else
      var c := match steps[0]
        case Begin(now) => BeginCalls(calls, callsPerMinute, now)
        case Finish(later) => FinishCalls(calls, later);
      Interleave(c, callsPerMinute, steps[1..])
  }

  /** The calls after the steps, in order, with the re-checking wake-up. */
  function InterleaveChecked(calls: seq<int>, callsPerMinute: int, steps: seq<Step>): seq<int>
    decreases |steps|
  {
    if steps == [] then calls
    else
      var c := match steps[0]
        case Begin(now) => BeginCalls(calls, callsPerMinute, now)
        case Finish(later) => FinishCallsChecked(calls, callsPerMinute, later);
      InterleaveChecked(c, callsPerMinute, steps[1..])
  }

  /** Entering `acquire` never takes the window past the limit. */
  lemma BeginKeepsLimit(calls: seq<int>, callsPerMinute: int, now: int)
    requires |calls| <= callsPerMinute
    ensures |BeginCalls(calls, callsPerMinute, now)| <= callsPerMinute
  {
    AfterMembers(calls, now - Window);
  }

  /**
   * With the re-checking wake-up, no interleaving of callers ever holds more
   * calls than the limit.
   */
  lemma {:induction false} InterleaveCheckedKeepsLimit(calls: seq<int>, callsPerMinute: int, steps: seq<Step>)
    requires |calls| <= callsPerMinute
    ensures |InterleaveChecked(calls, callsPerMinute, steps)| <= callsPerMinute
    decreases |steps|
  {
    if steps != [] {
      var t := match steps[0] case Begin(now) => now case Finish(later) => later;
      BeginKeepsLimit(calls, callsPerMinute, t);
      InterleaveCheckedKeepsLimit(BeginCalls(calls, callsPerMinute, t), callsPerMinute, steps[1..]);
    }
  }

  /**
   * As written, two callers that find a one-call window full both sleep the
   * whole computed wait, and on waking both record a call: the window then
   * holds two calls against a limit of one. The re-checking wake-up records
   * only one of them.
   */
  lemma TwoWaitersOvershoot()
    ensures AcquireOutcome([0], 1, 1) == Waited(Window - 1)
    ensures 1 + (Window - 1) <= Window
    ensures Interleave([0], 1, [Begin(1), Begin(1), Finish(Window), Finish(Window)]) == [Window, Window]
    ensures InterleaveChecked([0], 1, [Begin(1), Begin(1), Finish(Window), Finish(Window)]) == [Window]
  {
    var steps := [Begin(1), Begin(1), Finish(Window), Finish(Window)];
    var w := [Window];
    assert [0][..0] == [];
    assert w[..0] == [];
    assert Pruned([0], 1) == [0];
    assert Pruned([0], Window) == [];
    assert Pruned(w, Window) == w;
    assert BeginCalls([0], 1, 1) == [0];
    assert FinishCalls([0], Window) == w;
    assert FinishCalls(w, Window) == [Window, Window];
    assert FinishCallsChecked([0], 1, Window) == w;
    assert FinishCallsChecked(w, 1, Window) == w;
    var s1, s2, s3 := steps[1..], steps[2..], steps[3..];
    assert s1[1..] == s2 && s2[1..] == s3 && s3[1..] == [];
    assert steps[0] == Begin(1) && s1[0] == Begin(1) && s2[0] == Finish(Window) && s3[0] == Finish(Window);
    assert Interleave(w, 1, s3) == [Window, Window];
    assert Interleave([0], 1, s2) == Interleave(w, 1, s3);
    assert Interleave([0], 1, s1) == Interleave([0], 1, s2);
    assert Interleave([0], 1, steps) == Interleave([0], 1, s1);
    assert InterleaveChecked(w, 1, s3) == w;
    assert InterleaveChecked([0], 1, s2) == InterleaveChecked(w, 1, s3);
    assert InterleaveChecked([0], 1, s1) == InterleaveChecked([0], 1, s2);
    assert InterleaveChecked([0], 1, steps) == InterleaveChecked([0], 1, s1);
  }

  class RateLimiter {
    var callsPerMinute: int
    var calls: seq<int>

    constructor (callsPerMinute: int)
      ensures this.callsPerMinute == callsPerMinute && calls == []
    {
      this.callsPerMinute := callsPerMinute;
      calls := [];
    }

    /**
     * `acquire`: drop the calls older than a minute; when the window is
     * full, compute the wait for its oldest call, then (after the caller's
     * sleep, reading `later`) drop the old calls again; record the reading.
     */
    method Acquire(now: int, later: int) returns (outcome: Acquired)
      modifies this
      ensures callsPerMinute == old(callsPerMinute)
      ensures outcome == AcquireOutcome(old(calls), callsPerMinute, now)
      ensures calls == AcquireCalls(old(calls), callsPerMinute, now, later)
    {
      outcome := BeginAcquire(now);
      if outcome.Waited? {
        FinishAcquire(later);
      }
    }

    /** `acquire` up to the sleep: prune, then record `now` or report the wait. */
    method BeginAcquire(now: int) returns (outcome: Acquired)
      modifies this
      ensures callsPerMinute == old(callsPerMinute)
      ensures outcome == AcquireOutcome(old(calls), callsPerMinute, now)
      ensures calls == BeginCalls(old(calls), callsPerMinute, now)
    {
      calls := Pruned(calls, now);
      if |calls| >= callsPerMinute {
        if calls == [] {
          return NoOldestCall;
        }
        var oldestCall := calls[0];
        var waitMicros := Window - (now - oldestCall);
        outcome := Waited(waitMicros);
      } else {
        outcome := Immediate;
        calls := calls + [now];
      }
    }

    /** `acquire` after the sleep, reading `later`: prune again and record the reading. */
    method FinishAcquire(later: int)
      modifies this
      ensures callsPerMinute == old(callsPerMinute)
      ensures calls == FinishCalls(old(calls), later)
    {
      calls := Pruned(calls, later);
      calls := calls + [later];
    }

    /** `reset`. */
    method Reset()
      modifies this
      ensures callsPerMinute == old(callsPerMinute) && calls == []
    {
      calls := [];
    }

    /** `get_remaining`: prunes the window, then reports the free slots. */
    method GetRemaining(now: int) returns (r: int)
      modifies this
      ensures callsPerMinute == old(callsPerMinute)
      ensures calls == Pruned(old(calls), now)
      ensures r == Remaining(callsPerMinute, calls)
    {
      calls := Pruned(calls, now);
      r := if callsPerMinute - |calls| > 0 then callsPerMinute - |calls| else 0;
    }
  }

  /** After `reset`, every slot is free again. */
  lemma ResetFreesAll(callsPerMinute: int, now: int)
    requires callsPerMinute >= 0
    ensures Remaining(callsPerMinute, Pruned([], now)) == callsPerMinute
  {
  }
}
