// internal/conversion/handler.go: the retry delay, and the registry of conversion handlers.

module Backoffs {
  import opened Wrappers

  const MAX_RETRIES: int := 5

  function Pow2(n: nat): nat {
    if n == 0 then 1 else 2 * Pow2(n - 1)
  }

  /** Seconds to wait before the given attempt. */
  function Backoff(attempt: int): nat {
    if attempt <= 0 then 0 else Pow2((if attempt < MAX_RETRIES then attempt else MAX_RETRIES) - 1)
  }

  /** The doubling loop; its values are small powers of two, which a float64 holds exactly. */
  method CalculateBackoff(attempt: int) returns (backoff: nat)
    ensures backoff == Backoff(attempt)
  {
    if attempt <= 0 {
      return 0;
    }
    backoff := 1;
    var i := 1;
    while i < attempt && i < MAX_RETRIES
      invariant 1 <= i <= attempt && i <= MAX_RETRIES && backoff == Pow2(i - 1)
    {
      backoff := backoff * 2;
      i := i + 1;
    }
  }

  lemma {:induction false} Pow2Monotone(m: nat, n: nat)
    requires m <= n
    ensures 1 <= Pow2(m) <= Pow2(n)
  {
    if n == 0 {
    } else if m < n {
      Pow2Monotone(m, n - 1);
    } else {
      Pow2Monotone(m - 1, n - 1);
    }
  }

  /** Later attempts never wait less, and none waits more than 16 seconds. */
  lemma BackoffGrowsToCap(a: int, b: int)
    requires a <= b
    ensures Backoff(a) <= Backoff(b) <= 16
  {
    assert Pow2(4) == 16;
    if a > 0 {
      var m := (if a < MAX_RETRIES then a else MAX_RETRIES) - 1;
      var n := (if b < MAX_RETRIES then b else MAX_RETRIES) - 1;
      Pow2Monotone(m, n);
    }
    if b > 0 {
      Pow2Monotone((if b < MAX_RETRIES then b else MAX_RETRIES) - 1, 4);
    }
  }

  /** Everything a job still waits when it fails with `attempt` failures behind it, failing every time. */
  function WaitAfter(attempt: int, maxRetries: int): nat
    decreases maxRetries - attempt
  {
    if attempt + 1 >= maxRetries then 0 else Backoff(attempt + 1) + WaitAfter(attempt + 1, maxRetries)
  }

  lemma {:induction false} WaitExtends(attempt: int, maxRetries: int)
    requires attempt < maxRetries
    ensures WaitAfter(attempt, maxRetries + 1) == WaitAfter(attempt, maxRetries) + Backoff(maxRetries)
    decreases maxRetries - attempt
  {
    if attempt + 1 < maxRetries {
      WaitExtends(attempt + 1, maxRetries);
    }
  }

  /** A job that always fails waits 2^(m-1) - 1 seconds in all under m retries up to six, and 16 more for each further
      one. */
  lemma {:induction false} TotalWait(m: nat)
    ensures m <= 1 ==> WaitAfter(0, m) == 0
    ensures 1 <= m <= 6 ==> WaitAfter(0, m) == Pow2(m - 1) - 1
    ensures m >= 6 ==> WaitAfter(0, m) == 31 + 16 * (m - 6)
  {
    assert Pow2(4) == 16;
    assert Pow2(5) == 2 * Pow2(4);
    if m > 1 {
      TotalWait(m - 1);
      WaitExtends(0, m - 1);
    }
  }

  class Registry {
    /** Each handler as the test it puts to a MIME type. */
    var handlers: seq<string -> bool>

    constructor ()
      ensures handlers == []
    {
      handlers := [];
    }

    method Register(canHandle: string -> bool)
      modifies this
      ensures handlers == old(handlers) + [canHandle]
    {
      handlers := handlers + [canHandle];
    }

    /** The first registered handler that accepts the type; None stands for the not-found error. */
    method FindHandler(mimeType: string) returns (found: Option<nat>)
      ensures found.Some? ==>
        && found.value < |handlers| && handlers[found.value](mimeType)
        && forall i :: 0 <= i < found.value ==> !handlers[i](mimeType)
      ensures found.None? ==> forall i :: 0 <= i < |handlers| ==> !handlers[i](mimeType)
    {
      for i := 0 to |handlers|
        invariant forall k :: 0 <= k < i ==> !handlers[k](mimeType)
      {
        if handlers[i](mimeType) {
          return Some(i);
        }
      }
      return None;
    }
  }
}
