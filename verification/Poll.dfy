/** Waiting for the user to validate a consumer key: a poll with doubling, capped back-off
    against a deadline. Times are in nanoseconds. */
module Poll {
  const SECOND := 1_000_000_000
  const POLL_INTERVAL := 2 * SECOND
  const MAX_POLL_INTERVAL := 30 * SECOND
  const DEFAULT_FLOW_TIMEOUT := 600 * SECOND

  // What the world does around one attempt: whether it succeeds and how long it takes, and
  // whether the wait after it is cut short by a cancellation, `until` into it. An uncut wait
  // lasts `lag` longer than asked for.
  datatype Attempt = Attempt(ok: bool, took: nat, cancelled: bool, until: nat, lag: nat)

  type Script = nat -> Attempt

  datatype Verdict = Validated | TimedOut | Cancelled

  /** The schedule. */

  function Doubled(i: nat): nat {
    if i == 0 then POLL_INTERVAL else 2 * Doubled(i - 1)
  }

  // The wait after attempt i.
  function Delay(i: nat): nat {
    if i < 4 then Doubled(i) else MAX_POLL_INTERVAL
  }

  // Waits asked for before attempt n.
  function Slept(n: nat): nat {
    if n == 0 then 0 else Slept(n - 1) + Delay(n - 1)
  }

  // When attempt n starts, counted from the start of the flow.
  function Start(script: Script, n: nat): nat
    decreases n, 0
  {
    if n == 0 then 0 else End(script, n - 1) + Delay(n - 1) + script(n - 1).lag
  }

  function End(script: Script, n: nat): nat
    decreases n, 1
  {
    Start(script, n) + script(n).took
  }

  // Why the loop stops at attempt n, if it does.
  predicate Stops(script: Script, timeout: int, n: nat) {
    script(n).ok || End(script, n) > timeout || script(n).cancelled
  }

  function VerdictAt(script: Script, timeout: int, n: nat): Verdict {
    if script(n).ok then Validated else if End(script, n) > timeout then TimedOut else Cancelled
  }

  // When the loop, stopping at attempt n, returns.
  function ReturnedAt(script: Script, timeout: int, n: nat): nat {
    End(script, n) + if VerdictAt(script, timeout, n) == Cancelled then script(n).until else 0
  }

  predicate StopsFirst(script: Script, timeout: int, n: nat) {
    Stops(script, timeout, n) && forall k: nat | k < n :: !Stops(script, timeout, k)
  }

  // A cancellation cuts the wait, so it falls within it.
  ghost predicate Sound(script: Script) {
    forall n: nat :: script(n).cancelled ==> script(n).until <= Delay(n) + script(n).lag
  }

  /** The loop. */

  method PollUntilValidated(script: Script, timeout: int)
    returns (verdict: Verdict, attempts: nat, now: nat, sleeps: seq<nat>)
    ensures attempts >= 1 && StopsFirst(script, timeout, attempts - 1)
    ensures verdict == VerdictAt(script, timeout, attempts - 1)
    ensures now == ReturnedAt(script, timeout, attempts - 1)
    ensures |sleeps| == attempts - 1 && forall i | 0 <= i < |sleeps| :: sleeps[i] == Delay(i)
  {
    var deadline := timeout;
    var delay: nat := POLL_INTERVAL;
    attempts, now, sleeps := 0, 0, [];
    while true
      invariant now == Start(script, attempts) && delay == Delay(attempts)
      invariant |sleeps| == attempts && forall i | 0 <= i < |sleeps| :: sleeps[i] == Delay(i)
      invariant forall k: nat | k < attempts :: !Stops(script, timeout, k)
      decreases timeout - now
    {
      DelayDoubles(attempts);
      var attempt := script(attempts);
      attempts := attempts + 1;
      now := now + attempt.took;
      if attempt.ok {
        return Validated, attempts, now, sleeps;
      }
      if now > deadline {
        return TimedOut, attempts, now, sleeps;
      }
      if attempt.cancelled {
        return Cancelled, attempts, now + attempt.until, sleeps;
      }
      now := now + delay + attempt.lag;
      sleeps := sleeps + [delay];
      if delay < MAX_POLL_INTERVAL {
        delay := delay * 2;
        if delay > MAX_POLL_INTERVAL {
          delay := MAX_POLL_INTERVAL;
        }
      }
    }
  }

  /** What the schedule amounts to. */

  lemma {:induction false} DelayIsCapped(i: nat)
    ensures Delay(i) == if Doubled(i) < MAX_POLL_INTERVAL then Doubled(i) else MAX_POLL_INTERVAL
    ensures POLL_INTERVAL <= Delay(i)
    ensures i >= 4 ==> Doubled(i) > MAX_POLL_INTERVAL
  {
    if i == 0 {
    } else {
      DelayIsCapped(i - 1);
      assert Doubled(1) == 4 * SECOND && Doubled(2) == 2 * Doubled(1);
      assert Doubled(3) == 2 * Doubled(2) && Doubled(4) == 2 * Doubled(3);
    }
  }

  // Two seconds, doubled until the cap.
  lemma FirstDelays(i: nat)
    ensures Delay(0) == 2 * SECOND && Delay(1) == 4 * SECOND && Delay(2) == 8 * SECOND && Delay(3) == 16 * SECOND
    ensures i >= 4 ==> Delay(i) == 30 * SECOND
  {
    assert Doubled(1) == 4 * SECOND && Doubled(2) == 2 * Doubled(1) && Doubled(3) == 2 * Doubled(2);
  }

  lemma DelayDoubles(i: nat)
    ensures POLL_INTERVAL <= Delay(i)
    ensures Delay(i + 1) == if Delay(i) >= MAX_POLL_INTERVAL then Delay(i)
                            else if Delay(i) * 2 > MAX_POLL_INTERVAL then MAX_POLL_INTERVAL else Delay(i) * 2
  {
    DelayIsCapped(i);
    DelayIsCapped(i + 1);
  }

  lemma {:induction false} SleptExactly(n: nat)
    requires n >= 4
    ensures Slept(n) == 30 * (n - 3) * SECOND
  {
    if n == 4 {
      assert Doubled(1) == 4 * SECOND && Doubled(2) == 2 * Doubled(1) && Doubled(3) == 2 * Doubled(2);
      assert Slept(1) == 2 * SECOND && Slept(2) == 6 * SECOND && Slept(3) == 14 * SECOND;
    } else {
      SleptExactly(n - 1);
    }
  }

  lemma {:induction false} StartsAfterSleeps(script: Script, n: nat)
    ensures Slept(n) <= Start(script, n)
  {
    if n > 0 {
      StartsAfterSleeps(script, n - 1);
    }
  }

  // What attempts and late timers took before attempt n.
  function Spent(script: Script, n: nat): nat {
    if n == 0 then 0 else Spent(script, n - 1) + script(n - 1).took + script(n - 1).lag
  }

  lemma {:induction false} TimeAddsUp(script: Script, n: nat)
    ensures Start(script, n) == Slept(n) + Spent(script, n)
  {
    if n > 0 {
      TimeAddsUp(script, n - 1);
    }
  }

  // Why and when the loop returns: no attempt before the last succeeded, ended after the deadline
  // or was followed by a cancellation, and the last did, in this order of precedence.
  lemma ReturnsExactly(script: Script, timeout: int, n: nat)
    requires StopsFirst(script, timeout, n)
    ensures forall k: nat | k < n ::
              !script(k).ok && Slept(k) + Spent(script, k) + script(k).took <= timeout && !script(k).cancelled
    ensures var over := Slept(n) + Spent(script, n) + script(n).took;
            if script(n).ok then VerdictAt(script, timeout, n) == Validated && ReturnedAt(script, timeout, n) == over
            else if over > timeout then VerdictAt(script, timeout, n) == TimedOut && ReturnedAt(script, timeout, n) == over
            else script(n).cancelled && VerdictAt(script, timeout, n) == Cancelled
                 && ReturnedAt(script, timeout, n) == over + script(n).until
  {
    TimeAddsUp(script, n);
    forall k: nat | k < n
      ensures !script(k).ok && Slept(k) + Spent(script, k) + script(k).took <= timeout && !script(k).cancelled
    {
      TimeAddsUp(script, k);
      assert !Stops(script, timeout, k);
    }
  }

  // However fast the attempts are, their number is bounded by the timeout alone: 25 for the
  // default of ten minutes.
  lemma AttemptsAreBounded(script: Script, timeout: int, n: nat)
    requires StopsFirst(script, timeout, n)
    ensures n <= 4 || 30 * (n - 4) * SECOND <= timeout
    ensures timeout == DEFAULT_FLOW_TIMEOUT ==> n + 1 <= 25
  {
    if n > 4 {
      assert !Stops(script, timeout, n - 1);
      StartsAfterSleeps(script, n - 1);
      SleptExactly(n - 1);
    }
  }

  // The bound is met: instant failures make exactly 25 attempts and time out after 630 seconds.
  lemma InstantFailures(script: Script, n: nat)
    requires forall k: nat :: !script(k).ok && script(k).took == 0 && !script(k).cancelled && script(k).lag == 0
    requires StopsFirst(script, DEFAULT_FLOW_TIMEOUT, n)
    ensures n + 1 == 25 && VerdictAt(script, DEFAULT_FLOW_TIMEOUT, n) == TimedOut
    ensures ReturnedAt(script, DEFAULT_FLOW_TIMEOUT, n) == 630_000_000_000
  {
    InstantStart(script, n);
    AttemptsAreBounded(script, DEFAULT_FLOW_TIMEOUT, n);
    SleptGrows(n, 23);
    SleptExactly(23);
    SleptExactly(24);
  }

  lemma {:induction false} InstantStart(script: Script, n: nat)
    requires forall k: nat :: script(k).took == 0 && script(k).lag == 0
    ensures Start(script, n) == Slept(n)
  {
    if n > 0 {
      InstantStart(script, n - 1);
      assert script(n - 1).took == 0;
    }
  }

  lemma {:induction false} SleptGrows(m: nat, n: nat)
    ensures m <= n ==> Slept(m) <= Slept(n)
    decreases n
  {
    if m < n {
      SleptGrows(m, n - 1);
    }
  }

  // Attempts that take at most `longest`, and timers at most `lag` late.
  ghost predicate Bounded(script: Script, longest: nat, lag: nat) {
    forall k: nat :: script(k).took <= longest && script(k).lag <= lag
  }

  lemma DelayAtMost(i: nat)
    ensures Delay(i) <= MAX_POLL_INTERVAL
  {
    DelayIsCapped(i);
  }

  // The flow returns within one wait and one attempt of its deadline, and times out only after it.
  lemma ReturnsInTime(script: Script, timeout: nat, n: nat, longest: nat, lag: nat)
    requires StopsFirst(script, timeout, n) && Bounded(script, longest, lag) && Sound(script)
    ensures ReturnedAt(script, timeout, n) <= timeout + MAX_POLL_INTERVAL + lag + longest
    ensures VerdictAt(script, timeout, n) == TimedOut ==> ReturnedAt(script, timeout, n) > timeout
  {
    DelayAtMost(n);
    assert script(n).took <= longest && script(n).lag <= lag;
    assert script(n).cancelled ==> script(n).until <= Delay(n) + script(n).lag;
    if VerdictAt(script, timeout, n) != Cancelled && n > 0 {
      assert !Stops(script, timeout, n - 1);
      assert script(n - 1).lag <= lag;
      DelayAtMost(n - 1);
      assert End(script, n) == End(script, n - 1) + Delay(n - 1) + script(n - 1).lag + script(n).took;
    }
  }

  // A validation that leaves room for one more attempt before the deadline is seen, within one
  // wait and two attempts of its time.
  lemma ValidationIsSeen(script: Script, timeout: nat, n: nat, longest: nat, lag: nat, validatedAt: nat)
    requires StopsFirst(script, timeout, n) && Bounded(script, longest, lag)
    requires forall k: nat :: !script(k).cancelled && (Start(script, k) >= validatedAt ==> script(k).ok)
    requires validatedAt + longest <= timeout
    ensures VerdictAt(script, timeout, n) == Validated
    ensures ReturnedAt(script, timeout, n) <= validatedAt + MAX_POLL_INTERVAL + lag + 2 * longest
  {
    assert !script(n).cancelled && (Start(script, n) >= validatedAt ==> script(n).ok);
    assert script(n).took <= longest;
    if n > 0 {
      assert !Stops(script, timeout, n - 1);
      assert script(n - 1).took <= longest && script(n - 1).lag <= lag;
      DelayAtMost(n - 1);
    }
  }
}
