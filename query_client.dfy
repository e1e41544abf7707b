/**
 * The query client's default options (lib/queryClient.ts): retry counts, the
 * exponential retry delay, freshness and retention times, and refetch triggers.
 * All times are in milliseconds.
 */
module QueryClient {

  /** Defaults applied to every query. */
  datatype QueryDefaults = QueryDefaults(
    retry: nat,
    staleTime: nat,
    gcTime: nat,
    refetchOnWindowFocus: bool,
    refetchOnReconnect: bool,
    refetchOnMount: bool)

  /** Defaults applied to every mutation; `retryDelay` is a constant delay. */
  datatype MutationDefaults = MutationDefaults(retry: nat, retryDelay: nat)

  const Queries: QueryDefaults :=
    QueryDefaults(
      retry := 3,
      staleTime := 5 * 60 * 1000,
      gcTime := 10 * 60 * 1000,
      refetchOnWindowFocus := false,
      refetchOnReconnect := true,
      refetchOnMount := true)

  const Mutations: MutationDefaults := MutationDefaults(retry := 1, retryDelay := 1000)

  const BaseDelay: nat := 1000
  const MaxDelay: nat := 30000

  /** 2 to the power `n`. */
  function Pow2(n: nat): (p: nat)
    ensures p >= 1
  {
    if n == 0 then 1 else 2 * Pow2(n - 1)
  }

  /** Powers of two grow with the exponent. */
  lemma {:induction false} Pow2Monotone(m: nat, n: nat)
    requires m <= n
    ensures Pow2(m) <= Pow2(n)
    decreases n
  {
    if m < n {
      Pow2Monotone(m, n - 1);
    }
  }

  /**
   * The delay before retry number `attemptIndex` (counting from 0) of a failed query:
   * one second doubled per attempt, capped at thirty seconds.
   */
  function RetryDelay(attemptIndex: nat): (d: nat)
    ensures BaseDelay <= d <= MaxDelay
    ensures d <= BaseDelay * Pow2(attemptIndex)
    ensures d == MaxDelay || d == BaseDelay * Pow2(attemptIndex)
  {
    if BaseDelay * Pow2(attemptIndex) < MaxDelay then BaseDelay * Pow2(attemptIndex) else MaxDelay
  }

  /** The delay never shrinks from one attempt to a later one. */
  lemma RetryDelayMonotone(m: nat, n: nat)
    requires m <= n
    ensures RetryDelay(m) <= RetryDelay(n)
  {
    Pow2Monotone(m, n);
  }

  /** From the sixth attempt on (index 5), the delay is the 30-second cap. */
  lemma RetryDelayCapped(n: nat)
    requires n >= 5
    ensures RetryDelay(n) == MaxDelay
  {
    assert Pow2(5) == 32;
    Pow2Monotone(5, n);
  }

  /** Below the cap the delay doubles exactly: 1000, 2000, 4000, 8000, 16000. */
  lemma RetryDelayDoubles(n: nat)
    requires n < 4
    ensures RetryDelay(n + 1) == 2 * RetryDelay(n)
  {
    assert Pow2(4) == 16;
    Pow2Monotone(n + 1, 4);
  }

  /** The first five delays, as the configuration produces them. */
  lemma RetryDelayTable()
    ensures RetryDelay(0) == 1000 && RetryDelay(1) == 2000 && RetryDelay(2) == 4000
    ensures RetryDelay(3) == 8000 && RetryDelay(4) == 16000 && RetryDelay(5) == 30000
  {
    assert Pow2(5) == 32;
  }

  /**
   * The relations between the configured numbers: queries retry three times and
   * mutations once with a one-second delay; data stays fresh for five minutes, strictly
   * less than the ten minutes it is retained; refetching happens on reconnect and on
   * mount but not on window focus.
   */
  lemma ConfigurationFacts()
    ensures Queries.retry == 3 && Mutations.retry == 1 && Mutations.retry < Queries.retry
    ensures Mutations.retryDelay == BaseDelay == RetryDelay(0)
    ensures Queries.staleTime == 300000 && Queries.gcTime == 600000
    ensures Queries.staleTime < Queries.gcTime
    ensures !Queries.refetchOnWindowFocus && Queries.refetchOnReconnect && Queries.refetchOnMount
  {
  }
}
