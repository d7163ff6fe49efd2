/** The startup retry loop: capped doubling waits under a context deadline. Times in milliseconds. */
module Backoff {

  const FIRST_DELAY: nat := 500
  const MAX_DELAY: nat := 5000

  function Pow2(n: nat): (p: nat)
    ensures p >= 1
  {
    if n == 0 then 1 else 2 * Pow2(n - 1)
  }

  /** The k-th wait, counting from 1. */
  function Wait(k: nat): nat
    requires k >= 1
  {
    if FIRST_DELAY * Pow2(k - 1) < MAX_DELAY then FIRST_DELAY * Pow2(k - 1) else MAX_DELAY
  }

  /** The first n waits. */
  function Waits(n: nat): seq<nat> { if n == 0 then [] else Waits(n - 1) + [Wait(n)] }

  function Total(n: nat): nat { if n == 0 then 0 else Total(n - 1) + Wait(n) }

  /** How the environment treats one attempt: whether it connects, how long it takes, how late the
      timer's wake-up comes, and which of two simultaneous channels the runtime picks. */
  datatype Attempt = Attempt(ok: bool, took: nat, lag: nat, timerFirst: bool)

  /** The code's update of its delay variable follows the closed form. */
  lemma DelayDoubles(k: nat)
    requires k >= 1
    ensures Wait(k + 1) == if Wait(k) < MAX_DELAY then (if 2 * Wait(k) > MAX_DELAY then MAX_DELAY else 2 * Wait(k))
                           else Wait(k)
  {
    assert Pow2(k) == 2 * Pow2(k - 1);
  }

  /** Waits never shrink and reach the cap at the fifth. */
  lemma {:induction false} CappedFromFifth(k: nat)
    requires k >= 5
    ensures Wait(k) == 5000
    decreases k
  {
    if k == 5 {
      assert Pow2(4) == 16;
    } else {
      CappedFromFifth(k - 1);
      DelayDoubles(k - 1);
    }
  }

  /** The first four waits. */
  lemma FirstWaits()
    ensures Waits(4) == [500, 1000, 2000, 4000]
  {
    assert Pow2(0) == 1 && Pow2(1) == 2 && Pow2(2) == 4 && Pow2(3) == 8;
    assert Waits(1) == [Wait(1)] && Waits(2) == [Wait(1), Wait(2)] && Waits(3) == [Wait(1), Wait(2), Wait(3)];
  }

  lemma {:induction false} TotalClosedForm(n: nat)
    requires n >= 4
    ensures Total(n) == 7500 + 5000 * (n - 4)
  {
    if n == 4 {
      assert Pow2(0) == 1 && Pow2(1) == 2 && Pow2(2) == 4 && Pow2(3) == 8;
      assert Total(4) == Total(0) + Wait(1) + Wait(2) + Wait(3) + Wait(4);
    } else {
      TotalClosedForm(n - 1);
      CappedFromFifth(n);
    }
  }

  /** When attempt `k` ends, if every attempt before it is followed by its wait. */
  function EndOf(start: nat, attempt: nat -> Attempt, k: nat): (t: nat)
    requires k >= 1
    ensures t >= start + Total(k - 1)
  {
    if k == 1 then start + attempt(1).took
    else EndOf(start, attempt, k - 1) + Wait(k - 1) + attempt(k - 1).lag + attempt(k).took
  }

  lemma FirstWait(start: nat, attempt: nat -> Attempt)
    ensures Wait(1) == FIRST_DELAY && Waits(0) == [] && EndOf(start, attempt, 1) == start + attempt(1).took
  {
  }

  lemma NextWait(start: nat, attempt: nat -> Attempt, k: nat)
    requires k >= 1
    ensures Waits(k) == Waits(k - 1) + [Wait(k)]
    ensures EndOf(start, attempt, k + 1)
         == EndOf(start, attempt, k) + Wait(k) + attempt(k).lag + attempt(k + 1).took
  {
  }

  /** Attempt `k` failed in time, and its wait is over before the context. */
  predicate GoesOn(start: nat, deadline: nat, attempt: nat -> Attempt, k: nat)
    requires k >= 1
  {
    var end := EndOf(start, attempt, k);
    && !attempt(k).ok
    && end < deadline
    && (end + Wait(k) < deadline || (end + Wait(k) == deadline && attempt(k).timerFirst))
  }

  /** Call `connect` until it succeeds or the context is done. `attempt(k)` is how attempt k goes;
      `last` is when the last one ended. It stops at the first attempt that does not go on. */
  method RetryConnect(start: nat, deadline: nat, attempt: nat -> Attempt)
    returns (err: bool, attempts: nat, waits: seq<nat>, ghost last: nat)
    ensures attempts >= 1
    ensures forall k :: 1 <= k < attempts ==> GoesOn(start, deadline, attempt, k)
    ensures !GoesOn(start, deadline, attempt, attempts)
    ensures !err <==> attempt(attempts).ok
    ensures waits == Waits(attempts - 1)
    ensures last == EndOf(start, attempt, attempts)
    ensures attempts >= 2 ==> start + Total(attempts - 2) < deadline
  {
    hide Pow2, Wait, EndOf, Total, Waits;
    FirstWait(start, attempt);
    var delay := FIRST_DELAY;
    var now := start;
    attempts := 1;
    waits := [];
    last := start;
    while true
      invariant attempts >= 1 && delay == Wait(attempts) && delay >= FIRST_DELAY
      invariant forall k :: 1 <= k < attempts ==> GoesOn(start, deadline, attempt, k)
      invariant waits == Waits(attempts - 1)
      invariant now + attempt(attempts).took == EndOf(start, attempt, attempts)
      invariant attempts >= 2 ==> start + Total(attempts - 2) < deadline
      decreases if now < deadline then deadline - now else 0
    {
      var a := attempt(attempts);
      now := now + a.took;
      last := now;
      if a.ok {
        return false, attempts, waits, last;
      }
      if now >= deadline {
        return true, attempts, waits, last;
      }
      // Whichever of the timer and the context comes first.
      if now + delay > deadline || (now + delay == deadline && !a.timerFirst) {
        return true, attempts, waits, last;
      }
      now := now + delay + a.lag;
      waits := waits + [delay];
      DelayDoubles(attempts);
      NextWait(start, attempt, attempts);
      if delay < MAX_DELAY {
        delay := delay * 2;
        if delay > MAX_DELAY {
          delay := MAX_DELAY;
        }
      }
      attempts := attempts + 1;
    }
  }

  /** Under the services' 90-second startup context no dependency is tried more than 22 times. */
  lemma StartupAttemptsBounded(attempts: nat)
    requires attempts >= 2 && Total(attempts - 2) < 90000
    ensures attempts <= 22
  {
    if attempts >= 23 { TotalClosedForm(attempts - 2); }
  }

  /** Any deadline bounds the attempts. */
  lemma {:induction false} TotalGrows(n: nat)
    ensures Total(n) >= 500 * n
  {
    if n == 0 {
    } else {
      TotalGrows(n - 1);
    }
  }
}
