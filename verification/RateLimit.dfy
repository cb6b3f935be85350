/** The sliding-window rate limiter of the HTTP server: a bounded queue of recent
    acceptances that must agree with the full log of accepted requests. */
module RateLimit {

  // A minute, in nanoseconds, the unit of the monotonic clock.
  const MINUTE: int := 60_000_000_000

  // How many of the times lie in the closed interval from lo to hi.
  function CountIn(times: seq<int>, lo: int, hi: int): (n: nat)
    ensures n <= |times|
  {
    if times == [] then 0
    else
      var n := |times| - 1;
      CountIn(times[..n], lo, hi) + if lo <= times[n] <= hi then 1 else 0
  }

  ghost predicate Sorted(times: seq<int>) {
    forall i, j :: 0 <= i < j < |times| ==> times[i] <= times[j]
  }

  // Any acceptance is more than a minute after the one limit places before it.
  ghost predicate Spaced(times: seq<int>, limit: nat) {
    forall i, j :: 0 <= i && j == i + limit && j < |times| ==> times[i] + MINUTE < times[j]
  }

  lemma {:induction false} CountConcat(a: seq<int>, b: seq<int>, lo: int, hi: int)
    ensures CountIn(a + b, lo, hi) == CountIn(a, lo, hi) + CountIn(b, lo, hi)
  {
    if b == [] {
      assert a + b == a;
    } else {
      var n := |b| - 1;
      CountConcat(a, b[..n], lo, hi);
      assert (a + b)[..|a + b| - 1] == a + b[..n];
    }
  }

  lemma {:induction false} CountNone(times: seq<int>, lo: int, hi: int)
    requires forall i :: 0 <= i < |times| ==> times[i] < lo
    ensures CountIn(times, lo, hi) == 0
  {
    if times != [] {
      CountNone(times[..|times| - 1], lo, hi);
    }
  }

  lemma {:induction false} CountAll(times: seq<int>, lo: int, hi: int)
    requires forall i :: 0 <= i < |times| ==> lo <= times[i] <= hi
    ensures CountIn(times, lo, hi) == |times|
  {
    if times != [] {
      CountAll(times[..|times| - 1], lo, hi);
    }
  }

  function InMinute(times: seq<int>, lo: int): nat {
    CountIn(times, lo, lo + MINUTE)
  }

  // The bound: no closed minute, wherever it begins, holds more than limit
  // acceptances.
  lemma {:induction false} MinuteBound(times: seq<int>, limit: nat, lo: int)
    requires Sorted(times) && Spaced(times, limit)
    ensures InMinute(times, lo) <= limit
  {
    if times != [] {
      var n := |times| - 1;
      MinuteBound(times[..n], limit, lo);
      if n >= limit && lo <= times[n] <= lo + MINUTE {
        assert times[n - limit] + MINUTE < times[n];
        CountTail(times, n - limit + 1, lo, lo + MINUTE);
      }
    }
  }

  lemma CountTail(times: seq<int>, k: nat, lo: int, hi: int)
    requires k <= |times| && Sorted(times) && (k > 0 ==> times[k - 1] < lo)
    ensures CountIn(times, lo, hi) <= |times| - k
  {
    CountNone(times[..k], lo, hi);
    CountConcat(times[..k], times[k..], lo, hi);
    assert times == times[..k] + times[k..];
  }

  // Conversely, a sorted log that keeps the bound in every minute is spaced.
  lemma BoundMeansSpaced(times: seq<int>, limit: nat)
    requires Sorted(times) && forall lo :: InMinute(times, lo) <= limit
    ensures Spaced(times, limit)
  {
    forall i, j | 0 <= i && j == i + limit && j < |times|
      ensures times[i] + MINUTE < times[j]
    {
      assert InMinute(times, times[i]) <= limit;
      if times[j] <= times[i] + MINUTE {
        CrowdedMinute(times, i, j);
      }
    }
  }

  lemma CrowdedMinute(times: seq<int>, i: nat, j: nat)
    requires Sorted(times) && i <= j < |times| && times[j] <= times[i] + MINUTE
    ensures InMinute(times, times[i]) >= j + 1 - i
  {
    var lo, hi := times[i], times[i] + MINUTE;
    CountAll(times[i..j + 1], lo, hi);
    CountPart(times, i, j + 1, lo, hi);
  }

  lemma CountPart(times: seq<int>, i: nat, j: nat, lo: int, hi: int)
    requires i <= j <= |times|
    ensures CountIn(times, lo, hi) >= CountIn(times[i..j], lo, hi)
  {
    hide CountIn;
    CountConcat(times[..i], times[i..j], lo, hi);
    CountConcat(times[..i] + times[i..j], times[j..], lo, hi);
    assert times == times[..i] + times[i..j] + times[j..];
  }

  // ---- The window against the log ----

  // The window is the end of the log; what precedes it has expired.
  ghost predicate Agrees(log: seq<int>, window: seq<int>, latest: int) {
    && Sorted(log)
    && (forall i :: 0 <= i < |log| ==> log[i] <= latest)
    && |window| <= |log| && window == log[|log| - |window|..]
    && (forall i :: 0 <= i < |log| - |window| ==> log[i] < latest - MINUTE)
  }

  lemma CountWindow(log: seq<int>, window: seq<int>, now: int)
    requires Agrees(log, window, now)
    ensures CountIn(log, now - MINUTE, now) == CountIn(window, now - MINUTE, now)
  {
    var k := |log| - |window|;
    assert log == log[..k] + window;
    CountConcat(log[..k], window, now - MINUTE, now);
    CountNone(log[..k], now - MINUTE, now);
  }

  lemma CountNext(times: seq<int>, i: nat, lo: int, hi: int)
    requires i < |times| && times[i] <= hi
    ensures CountIn(times[..i + 1], lo, hi) == CountIn(times[..i], lo, hi) + if times[i] >= lo then 1 else 0
  {
    assert times[..i + 1][..i] == times[..i];
  }

  lemma AgreesLater(log: seq<int>, window: seq<int>, latest: int, now: int)
    requires Agrees(log, window, latest) && (log == [] || latest <= now)
    ensures Agrees(log, window, now)
  {
  }

  lemma AgreesPopped(log: seq<int>, window: seq<int>, now: int)
    requires Agrees(log, window, now) && window != [] && window[0] < now - MINUTE
    ensures Agrees(log, window[1..], now)
  {
  }

  lemma AgreesPushed(log: seq<int>, window: seq<int>, now: int)
    requires Agrees(log, window, now)
    ensures Agrees(log + [now], window + [now], now)
  {
  }

  // Once the front is recent the length of the window is the count of the
  // last minute,
  lemma WindowIsCount(log: seq<int>, window: seq<int>, now: int)
    requires Agrees(log, window, now)
    requires window == [] || window[0] >= now - MINUTE
    ensures |window| == CountIn(log, now - MINUTE, now)
  {
    CountWindow(log, window, now);
    forall i | 0 <= i < |window| ensures now - MINUTE <= window[i] <= now {
      assert window[i] == log[|log| - |window| + i] && window[0] == log[|log| - |window|];
    }
    CountAll(window, now - MINUTE, now);
  }

  // and there is room in it exactly if the log stays spaced.
  lemma RoomIffSpaced(log: seq<int>, window: seq<int>, limit: nat, now: int)
    requires Agrees(log, window, now) && Spaced(log, limit)
    requires window == [] || window[0] >= now - MINUTE
    ensures |window| < limit <==> Spaced(log + [now], limit)
  {
    var n, k, next := |log|, |log| - |window|, log + [now];
    if |window| < limit {
      forall i, j | 0 <= i && j == i + limit && j < |next| ensures next[i] + MINUTE < next[j] {
        if j == n { assert i < k; }
      }
    } else if limit == 0 {
      assert next[n] + MINUTE >= next[n];
    } else {
      assert window[0] == log[k] && log[k] <= log[n - limit];
      assert next[n - limit] + MINUTE >= next[n];
    }
  }

  class RateLimitBucket {
    var window: seq<int>
    const limit: nat
    // Every acceptance so far, and the latest moment at which one was asked for.
    ghost var log: seq<int>
    ghost var latest: int

    ghost predicate Valid()
      reads this
    {
      Agrees(log, window, latest) && Spaced(log, limit)
    }

    constructor (limit: nat)
      ensures Valid() && this.limit == limit && log == []
    {
      window, this.limit, log, latest := [], limit, [], 0;
    }

    // What may still be accepted now: the limit less the acceptances of the
    // last minute, read off the window.
    method Remaining(now: int) returns (n: nat)
      requires Valid() && (log == [] || latest <= now)
      ensures n == if CountIn(log, now - MINUTE, now) < limit then limit - CountIn(log, now - MINUTE, now) else 0
    {
      AgreesLater(log, window, latest, now);
      CountWindow(log, window, now);
      var recent := 0;
      for i := 0 to |window|
        invariant recent == CountIn(window[..i], now - MINUTE, now)
      {
        hide CountIn;
        CountNext(window, i, now - MINUTE, now);
        if window[i] >= now - MINUTE { recent := recent + 1; }
      }
      assert window[..|window|] == window;
      n := if recent < limit then limit - recent else 0;
    }

    // A request is accepted exactly when fewer than limit were accepted in the
    // last minute, counted in the full log (so exactly when Remaining is
    // positive), and exactly when the log stays within the bound with it.
    method CheckAndRecord(now: int) returns (accepted: bool)
      requires Valid() && (log == [] || latest <= now)
      modifies this
      ensures Valid() && latest == now
      ensures accepted <==> CountIn(old(log), now - MINUTE, now) < limit
      ensures accepted <==> Spaced(old(log) + [now], limit)
      ensures log == if accepted then old(log) + [now] else old(log)
    {
      AgreesLater(log, window, latest, now);
      latest := now;
      while window != [] && window[0] < now - MINUTE
        invariant Agrees(log, window, now) && log == old(log) && latest == now
      {
        AgreesPopped(log, window, now);
        window := window[1..];
      }
      WindowIsCount(log, window, now);
      RoomIffSpaced(log, window, limit, now);
      if |window| >= limit {
        return false;
      }
      AgreesPushed(log, window, now);
      window, log := window + [now], log + [now];
      return true;
    }
  }
}
