/** The cluster mutex (server/cluster/mutex.go): its configuration, its wait times, and the lease protocol over the
    key-value store. Times are in nanoseconds. */
module ClusterMutex {
  const SECOND := 1_000_000_000
  const MAX_POLL := SECOND

  // ----- configuration -----

  datatype MutexConfig = MutexConfig(ttl: int, refresh: int, poll: int)

  function SetDefaults(c: MutexConfig): MutexConfig {
    MutexConfig(if c.ttl == 0 then 10 * SECOND else c.ttl,
                if c.refresh == 0 then 5 * SECOND else c.refresh,
                if c.poll == 0 then SECOND / 2 else c.poll)
  }

  predicate IsValid(c: MutexConfig) {
    c.ttl > 0 && c.refresh > 0 && 0 < c.poll <= MAX_POLL && c.refresh <= c.ttl / 2
  }

  /** The expiry handed to the store is the TTL in whole seconds, rounded down. */
  function StoredTTL(c: MutexConfig): (t: int)
    requires c.ttl > 0
    ensures t % 1_000_000_000 == 0 && t <= c.ttl < t + 1_000_000_000
  {
    c.ttl / SECOND * SECOND
  }

  /** Truncating the expiry never lets it fall to the refresh interval, unless it truncates to nothing. */
  lemma RefreshBelowExpiry(c: MutexConfig)
    requires IsValid(c)
    ensures c.refresh < StoredTTL(c) <==> c.ttl >= SECOND
  {
    var q := c.ttl / SECOND;
    assert c.ttl < (q + 1) * SECOND;
    if q >= 1 { assert c.ttl / 2 < q * SECOND; }
  }

  /** A caller who sets the TTL alone is accepted only from twice the default refresh interval on. */
  lemma DefaultsAccepted(ttl: int)
    ensures IsValid(SetDefaults(MutexConfig(ttl, 0, 0))) <==> ttl == 0 || ttl >= 10 * SECOND
  {
  }

  // ----- waiting between attempts -----

  function PollTime(poll: int, retry: nat): int {
    if poll * retry > MAX_POLL then MAX_POLL else poll * retry
  }

  /** The least time n waits take. */
  function LeastTotal(poll: int, n: nat): int {
    if n == 0 then 0 else LeastTotal(poll, n - 1) + PollTime(poll, n)
  }

  /** With the wait growing by the poll interval up to a second, n waits take at least a second each once it is reached. */
  lemma {:induction false} LeastTotalGrows(poll: int, n: nat)
    requires 0 < poll <= MAX_POLL
    ensures LeastTotal(poll, n) >= poll * n
    ensures LeastTotal(poll, n) >= (n - MAX_POLL / poll) * MAX_POLL
  {
    if n > 0 {
      LeastTotalGrows(poll, n - 1);
      RampEnds(poll, n);
    }
  }

  lemma RampEnds(poll: int, n: nat)
    requires 0 < poll <= MAX_POLL && n > 0
    ensures poll <= PollTime(poll, n) <= MAX_POLL
    ensures n > MAX_POLL / poll ==> PollTime(poll, n) == MAX_POLL
  {
    assert poll * n == poll * (n - 1) + poll;
    Monotone(poll, 0, n - 1);
    if n > MAX_POLL / poll {
      Monotone(poll, MAX_POLL / poll + 1, n);
      assert MAX_POLL == poll * (MAX_POLL / poll) + MAX_POLL % poll;
    }
  }

  lemma Monotone(k: int, a: int, b: int)
    requires k > 0 && a <= b
    ensures k * a <= k * b
  {
  }

  function Left(start: int, deadline: int): nat {
    if deadline <= start then 0 else deadline - start
  }

  /** Lock, from the moment the local mutex is held: tries, and waits longer after each failure, until the key is set or
      the context is done, which it may be from the start. `waits` are the times slept through, whose number bounds the
      attempts before the deadline. */
  method Lock(poll: int, start: int, deadline: int) returns (locked: bool, nRetries: nat, waits: seq<int>, end: int)
    requires 0 < poll <= MAX_POLL
    ensures |waits| == if locked then nRetries else nRetries - 1
    ensures forall k :: 0 <= k < |waits| ==> PollTime(poll, k + 1) <= waits[k] < 2 * PollTime(poll, k + 1)
    ensures forall k :: 0 <= k < |waits| ==> (if poll * (k + 1) > SECOND then SECOND else poll * (k + 1)) <= waits[k]
    ensures LeastTotal(poll, |waits|) <= Left(start, deadline)
    ensures locked || end >= deadline
    ensures |waits| <= Left(start, deadline) / MAX_POLL + MAX_POLL / poll
  {
    var now := start;
    var done := start + Left(start, deadline);
    nRetries, waits := 0, [];
    while true
      invariant |waits| == nRetries
      invariant forall k :: 0 <= k < |waits| ==> PollTime(poll, k + 1) <= waits[k] < 2 * PollTime(poll, k + 1)
      invariant start + LeastTotal(poll, nRetries) <= now <= done
      decreases done - now
    {
      locked := *;
      if locked {
        end := now;
        AttemptsBounded(poll, |waits|, done - start);
        return;
      }
      nRetries := nRetries + 1;
      RampEnds(poll, nRetries);
      var pollTime := if poll * nRetries > MAX_POLL then MAX_POLL else poll * nRetries;
      var jitter: int :| 0 <= jitter < pollTime;
      if now + pollTime + jitter > done {
        end := done;
        AttemptsBounded(poll, |waits|, done - start);
        return;
      }
      waits := waits + [pollTime + jitter];
      now := now + pollTime + jitter;
    }
  }

  lemma AttemptsBounded(poll: int, n: nat, total: int)
    requires 0 < poll <= MAX_POLL && LeastTotal(poll, n) <= total
    ensures n <= total / MAX_POLL + MAX_POLL / poll
  {
    LeastTotalGrows(poll, n);
  }
}
