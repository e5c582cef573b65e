/** How consumers repeat a step that failed: the answers they meet and the waits in between. */
module Retries {

  // A failed attempt may have been applied all the same.
  datatype Try = Works | Fails(applied: bool)

  const MIN_BACKOFF: nat := 1
  const MAX_BACKOFF: nat := 30

  function NextBackoff(current: nat, maximum: nat): nat
  {
    if current * 2 > maximum then maximum else current * 2
  }

  // The wait before retry k, in seconds.
  function Backoff(k: nat): nat
  {
    if k == 0 then MIN_BACKOFF else NextBackoff(Backoff(k - 1), MAX_BACKOFF)
  }

  lemma BackoffStep()
    ensures Backoff(0) == MIN_BACKOFF
    ensures forall k: nat :: Backoff(k + 1) == NextBackoff(Backoff(k), MAX_BACKOFF)
  {
  }

  function Power(k: nat): nat
  {
    if k == 0 then 1 else 2 * Power(k - 1)
  }

  // Waits double from one second up to a ceiling of thirty.
  lemma {:induction false} BackoffDoubles(k: nat)
    ensures Backoff(k) == if Power(k) <= MAX_BACKOFF then Power(k) else MAX_BACKOFF
  {
    if k > 0 {
      BackoffDoubles(k - 1);
    }
  }
}
