/** The lease protocol of the cluster mutex (server/cluster/mutex.go) over every interleaving of nodes, goroutines and
    clock ticks: a local mutex in front, an atomic key with an expiry behind, and a goroutine that refreshes it. */
module ClusterLease {
  import opened CallModel
  import opened ClusterMutex

  /** Locked is between a successful Lock and the call to Unlock, Unlocking from there to the deletion of the key. */
  datatype Phase = Idle | Trying | Locked | Unlocking

  /** One process's Mutex: which goroutine holds the local mutex, whether the refresher is running, and when the lease
      it last wrote expires. */
  datatype Node = Node(owner: Option<ID>, phase: Phase, refresher: bool, lease: nat)

  datatype Cluster = Cluster(now: nat, key: Option<nat>, nodes: seq<Node>)

  datatype Step =
    | LocalLock(i: nat, goroutine: ID)
    | TryLock(i: nat, fails: bool)
    | GiveUp(i: nat)
    | Refresh(i: nat, fails: bool)
    | Unlock(i: nat)
    | StopRefresher(i: nat)
    | Delete(i: nat, fails: bool)
    | Pass(d: nat)

  predicate Holding(n: Node) {
    n.phase.Locked? || n.phase.Unlocking?
  }

  /** An expired key counts as absent. */
  predicate Present(c: Cluster) {
    c.key.Some? && c.now < c.key.value
  }

  /** Unlock may be called on any mutex whose local mutex is free or whose owner holds the lock. */
  predicate Enabled(c: Cluster, s: Step) {
    match s
    case LocalLock(i, _) => i < |c.nodes| && c.nodes[i].owner.None?
    case TryLock(i, _) => i < |c.nodes| && c.nodes[i].phase.Trying?
    case GiveUp(i) => i < |c.nodes| && c.nodes[i].phase.Trying?
    case Refresh(i, _) => i < |c.nodes| && c.nodes[i].refresher
    case Unlock(i) => i < |c.nodes| && (c.nodes[i].owner.None? || c.nodes[i].phase.Locked?)
    case StopRefresher(i) => i < |c.nodes| && c.nodes[i].phase.Unlocking? && c.nodes[i].refresher
    case Delete(i, _) => i < |c.nodes| && c.nodes[i].phase.Unlocking? && !c.nodes[i].refresher
    case Pass(d) => d > 0
  }

  /** The refresher writes the same value as the lock, so it succeeds on whatever unexpired key is there; when the write
      fails it gives up for good. A failed deletion leaves the key to expire. */
  function Next(c: Cluster, s: Step, ttl: nat): Cluster
    requires Enabled(c, s)
  {
    match s
    case LocalLock(i, g) => c.(nodes := c.nodes[i := c.nodes[i].(owner := Some(g), phase := Trying)])
    case TryLock(i, fails) =>
      if fails || Present(c) then c
      else c.(key := Some(c.now + ttl), nodes := c.nodes[i := c.nodes[i].(phase := Locked, refresher := true, lease := c.now + ttl)])
    case GiveUp(i) => c.(nodes := c.nodes[i := c.nodes[i].(owner := None, phase := Idle)])
    case Refresh(i, fails) =>
      if fails || !Present(c) then c.(nodes := c.nodes[i := c.nodes[i].(refresher := false)])
      else c.(key := Some(c.now + ttl), nodes := c.nodes[i := c.nodes[i].(lease := c.now + ttl)])
    case Unlock(i) => if c.nodes[i].owner.None? then c else c.(nodes := c.nodes[i := c.nodes[i].(phase := Unlocking)])
    case StopRefresher(i) => c.(nodes := c.nodes[i := c.nodes[i].(refresher := false)])
    case Delete(i, fails) =>
      c.(key := if fails then c.key else None, nodes := c.nodes[i := c.nodes[i].(owner := None, phase := Idle)])
    case Pass(d) => c.(now := c.now + d)
  }

  /** Time passes no further than just before the expiry of any lease that is still held: its next refresh, or its
      deletion, comes first. */
  predicate Timely(c: Cluster, s: Step) {
    s.Pass? ==> forall i :: 0 <= i < |c.nodes| && Holding(c.nodes[i]) ==> c.now + s.d < c.nodes[i].lease
  }

  ghost predicate ValidRun(c: Cluster, ttl: nat, steps: seq<Step>)
    decreases |steps|
  {
    steps == [] || (Enabled(c, steps[0]) && Timely(c, steps[0]) && ValidRun(Next(c, steps[0], ttl), ttl, steps[1..]))
  }

  ghost function Run(c: Cluster, ttl: nat, steps: seq<Step>): Cluster
    requires ValidRun(c, ttl, steps)
    decreases |steps|
  {
    if steps == [] then c else Run(Next(c, steps[0], ttl), ttl, steps[1..])
  }

  // ----- the invariant -----

  ghost predicate NodeOK(n: Node, key: Option<nat>, now: nat) {
    && (n.owner.None? <==> n.phase.Idle?)
    && (n.refresher ==> Holding(n))
    && (Holding(n) ==> key == Some(n.lease) && now < n.lease)
  }

  ghost predicate OneHolder(nodes: seq<Node>) {
    forall i, j :: 0 <= i < |nodes| && 0 <= j < |nodes| && Holding(nodes[i]) && Holding(nodes[j]) ==> i == j
  }

  ghost predicate Inv(c: Cluster) {
    OneHolder(c.nodes) && forall i :: 0 <= i < |c.nodes| ==> NodeOK(c.nodes[i], c.key, c.now)
  }

  lemma StepKeeps(c: Cluster, s: Step, ttl: nat)
    requires ttl > 0 && Inv(c) && Enabled(c, s) && Timely(c, s)
    ensures Inv(Next(c, s, ttl))
  {
    var c' := Next(c, s, ttl);
    match s {
      case TryLock(i, fails) =>
        if !fails && !Present(c) { assert forall j :: 0 <= j < |c.nodes| ==> NodeOK(c.nodes[j], c.key, c.now) && !Holding(c.nodes[j]); }
      case Refresh(i, fails) => assert NodeOK(c.nodes[i], c.key, c.now);
      case Delete(i, fails) => assert NodeOK(c.nodes[i], c.key, c.now);
      case _ =>
    }
    forall j | 0 <= j < |c'.nodes| ensures NodeOK(c'.nodes[j], c'.key, c'.now) {
      assert NodeOK(c.nodes[j], c.key, c.now);
    }
  }

  lemma {:induction false} RunKeeps(c: Cluster, ttl: nat, steps: seq<Step>)
    requires ttl > 0 && Inv(c) && ValidRun(c, ttl, steps)
    ensures Inv(Run(c, ttl, steps))
    decreases |steps|
  {
    if steps != [] {
      StepKeeps(c, steps[0], ttl);
      RunKeeps(Next(c, steps[0], ttl), ttl, steps[1..]);
    }
  }

  /** A cluster before anyone locked; the key may be left over from a holder that died. */
  predicate Fresh(c: Cluster) {
    forall i :: 0 <= i < |c.nodes| ==> c.nodes[i] == Node(None, Idle, false, 0)
  }

  /** If every holder's next refresh or deletion comes before its lease expires, at most one goroutine of the whole
      cluster is between a successful Lock and the deletion in its Unlock, and all that time the key is there, unexpired. */
  lemma MutualExclusion(c: Cluster, ttl: nat, steps: seq<Step>)
    requires ttl > 0 && Fresh(c) && ValidRun(c, ttl, steps)
    ensures var c' := Run(c, ttl, steps);
            && (forall i, j :: 0 <= i < |c'.nodes| && 0 <= j < |c'.nodes| && Holding(c'.nodes[i]) && Holding(c'.nodes[j]) ==> i == j)
            && (forall i :: 0 <= i < |c'.nodes| && Holding(c'.nodes[i]) ==> c'.nodes[i].owner.Some? && Present(c'))
  {
    RunKeeps(c, ttl, steps);
    var c' := Run(c, ttl, steps);
    forall i | 0 <= i < |c'.nodes| && Holding(c'.nodes[i]) ensures c'.nodes[i].owner.Some? && Present(c') {
      assert NodeOK(c'.nodes[i], c'.key, c'.now);
    }
  }

  /** Unlocking a mutex that nobody holds locally changes nothing. */
  lemma UnlockOfUnlocked(c: Cluster, i: nat, ttl: nat)
    requires Inv(c) && Enabled(c, Unlock(i)) && c.nodes[i].phase.Idle?
    ensures Next(c, Unlock(i), ttl) == c
  {
    assert NodeOK(c.nodes[i], c.key, c.now);
  }

  /** The timing condition is exact: once the clock has passed by d, another node's attempt takes the lock from under
      its holder if and only if the holder was late. */
  lemma LateHolderLosesLock(c: Cluster, i: nat, j: nat, d: nat, ttl: nat)
    requires Inv(c) && i < |c.nodes| && j < |c.nodes| && Holding(c.nodes[i]) && c.nodes[j].phase.Trying? && d > 0
    ensures var c1 := Next(c, Pass(d), ttl);
            Enabled(c1, TryLock(j, false))
            && (Holding(Next(c1, TryLock(j, false), ttl).nodes[i]) && Holding(Next(c1, TryLock(j, false), ttl).nodes[j])
                <==> !Timely(c, Pass(d)))
  {
    assert NodeOK(c.nodes[i], c.key, c.now);
    assert forall k :: 0 <= k < |c.nodes| && Holding(c.nodes[k]) ==> k == i;
  }

  /** A refresher that ticks in time keeps the lease: after a refresh at any moment, a whole interval shorter than the
      stored expiry may pass. */
  lemma RefreshInTime(c: Cluster, i: nat, ttl: nat, interval: nat)
    requires Inv(c) && Enabled(c, Refresh(i, false)) && 0 < interval < ttl
    ensures var c1 := Next(c, Refresh(i, false), ttl);
            c1.nodes[i].refresher && Timely(c1, Pass(interval))
  {
    assert NodeOK(c.nodes[i], c.key, c.now);
    assert forall k :: 0 <= k < |c.nodes| && Holding(c.nodes[k]) ==> k == i;
  }

  // ----- from the configuration -----

  /** Time passes no further than one refresh interval, and `late` more, after the last write of any lease that is still
      held: the refresher ticks on schedule, and its write or the deletion takes no longer than that. */
  predicate OnSchedule(c: Cluster, s: Step, ttl: nat, refresh: int, late: nat) {
    s.Pass? ==> forall i :: 0 <= i < |c.nodes| && Holding(c.nodes[i]) ==> c.now + s.d <= c.nodes[i].lease - ttl + refresh + late
  }

  ghost predicate ScheduledRun(c: Cluster, ttl: nat, refresh: int, late: nat, steps: seq<Step>)
    decreases |steps|
  {
    steps == []
    || (Enabled(c, steps[0]) && OnSchedule(c, steps[0], ttl, refresh, late)
        && ScheduledRun(Next(c, steps[0], ttl), ttl, refresh, late, steps[1..]))
  }

  lemma {:induction false} ScheduleIsTimely(c: Cluster, ttl: nat, refresh: int, late: nat, steps: seq<Step>)
    requires refresh + late < ttl && ScheduledRun(c, ttl, refresh, late, steps)
    ensures ValidRun(c, ttl, steps)
    decreases |steps|
  {
    if steps != [] { ScheduleIsTimely(Next(c, steps[0], ttl), ttl, refresh, late, steps[1..]); }
  }

  /** A valid configuration of at least a second leaves room for a schedule (RefreshBelowExpiry), and any run on such a
      schedule excludes: no two goroutines of the cluster hold the lock at once, and the key is there as long as one does. */
  lemma ConfiguredExclusion(config: MutexConfig, late: nat, c: Cluster, steps: seq<Step>)
    requires IsValid(config) && config.ttl >= SECOND && late < StoredTTL(config) - config.refresh
    requires Fresh(c) && ScheduledRun(c, StoredTTL(config), config.refresh, late, steps)
    ensures ValidRun(c, StoredTTL(config), steps)
    ensures var c' := Run(c, StoredTTL(config), steps);
            && OneHolder(c'.nodes)
            && (forall i :: 0 <= i < |c'.nodes| && Holding(c'.nodes[i]) ==> c'.nodes[i].owner.Some? && Present(c'))
  {
    ScheduleIsTimely(c, StoredTTL(config), config.refresh, late, steps);
    MutualExclusion(c, StoredTTL(config), steps);
  }
}
