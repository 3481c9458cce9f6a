// The waits of the retry governor: tenacity's `wait_exponential` with
// multiplier 1, floor MinWaitBetweenReq and ceiling MaxWaitBetweenReq.

module Backoff {
  import opened Settings

  const Multiplier: nat := 1

  function Pow2(k: nat): nat {
    if k == 0 then 1 else 2 * Pow2(k - 1)
  }

  /**
   * The wait after the attempt numbered `attemptNumber` (from 1) failed:
   * `multiplier * 2^(attemptNumber - 1)`, raised to the floor and cut to the
   * ceiling, the floor itself being at least 0.
   */
  function WaitExponential(attemptNumber: nat): (w: int)
    requires attemptNumber >= 1
    ensures MinWaitBetweenReq <= w <= MaxWaitBetweenReq
  {
    var exp := Multiplier * Pow2(attemptNumber - 1);
    Max(Max(0, MinWaitBetweenReq), Min(exp, MaxWaitBetweenReq))
  }

  function Max(a: int, b: int): int { if a < b then b else a }
  function Min(a: int, b: int): int { if a < b then a else b }

  lemma {:induction false} Pow2Monotone(i: nat, j: nat)
    requires i <= j
    ensures Pow2(i) <= Pow2(j)
  {
    if i < j {
      Pow2Monotone(i, j - 1);
    }
  }

  /** Later attempts never wait less. */
  lemma WaitMonotone(a: nat, b: nat)
    requires 1 <= a <= b
    ensures WaitExponential(a) <= WaitExponential(b)
  {
    Pow2Monotone(a - 1, b - 1);
  }

  /** The waits after the first four attempts are 2, 2, 4 and 5 seconds. */
  lemma WaitSchedule()
    ensures WaitExponential(1) == 2 && WaitExponential(2) == 2
    ensures WaitExponential(3) == 4 && WaitExponential(4) == 5
  {
  }
}
