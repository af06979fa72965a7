/** The Mutex object itself (server/cluster/mutex.go): each method is one or more steps of the lease protocol. */
module MutexObject {
  import opened CallModel
  import opened ClusterMutex
  import L = ClusterLease

  /** The atomic key-value store: any call may fail without effect. */
  class KeyValueStore {
    var now: nat
    var expiry: Option<nat>

    predicate Present()
      reads this
    {
      expiry.Some? && now < expiry.value
    }

    /** KVSetWithOptions with Atomic: the write happens if the key is there (or not there) as expected. */
    method SetIf(present: bool, seconds: nat) returns (ok: bool, failed: bool)
      modifies this`expiry
      ensures ok <==> !failed && present == old(Present())
      ensures expiry == if ok then Some(now + seconds * SECOND) else old(expiry)
    {
      failed := *;
      ok := !failed && present == Present();
      if ok { expiry := Some(now + seconds * SECOND); }
    }

    method Delete() returns (failed: bool)
      modifies this`expiry
      ensures expiry == if failed then old(expiry) else None
    {
      failed := *;
      if !failed { expiry := None; }
    }
  }

  class Channel {
    var closed: bool
    constructor () ensures !closed { closed := false; }
  }

  class Mutex {
    const config: MutexConfig
    var heldBy: Option<ID>
    var stopCh: Channel?
    var doneCh: Channel?
    ghost var lease: nat

    ghost predicate Valid()
      reads this, stopCh, doneCh
    {
      && IsValid(config) && (stopCh == null <==> doneCh == null) && (stopCh != null ==> stopCh != doneCh && heldBy.Some?)
      && (doneCh != null && stopCh.closed ==> doneCh.closed)
    }

    /** The object as a node of the protocol: the refresher runs until it closes doneCh. */
    ghost function Value(): L.Node
      reads this, stopCh, doneCh
    {
      L.Node(heldBy,
             if heldBy.None? then L.Idle else if stopCh == null then L.Trying else if stopCh.closed then L.Unlocking else L.Locked,
             doneCh != null && !doneCh.closed, lease)
    }

    ghost function View(kv: KeyValueStore): L.Cluster
      reads this, stopCh, doneCh, kv
    {
      L.Cluster(kv.now, kv.expiry, [Value()])
    }

    function Seconds(): nat
      requires config.ttl > 0
    {
      config.ttl / SECOND
    }

    constructor (config: MutexConfig)
      requires IsValid(SetDefaults(config))
      ensures Valid() && this.config == SetDefaults(config) && Value() == L.Node(None, L.Idle, false, 0)
    {
      this.config, heldBy, stopCh, doneCh, lease := SetDefaults(config), None, null, null, 0;
    }

    /** The local mutex, which lets one goroutine of the process on to the attempts. */
    method LockLocally(goroutine: ID, kv: KeyValueStore)
      requires Valid() && heldBy.None?
      modifies this`heldBy
      ensures Valid() && View(kv) == L.Next(old(View(kv)), L.LocalLock(0, goroutine), StoredTTL(config))
    {
      heldBy := Some(goroutine);
    }

    /** The context of a waiting Lock is done. */
    method GiveUp(kv: KeyValueStore)
      requires Valid() && Value().phase == L.Trying
      modifies this`heldBy
      ensures Valid() && View(kv) == L.Next(old(View(kv)), L.GiveUp(0), StoredTTL(config))
    {
      heldBy := None;
    }

    /** One attempt by the goroutine that holds the local mutex. */
    method TryOnce(kv: KeyValueStore) returns (locked: bool, failed: bool)
      requires Valid() && Value().phase == L.Trying
      modifies this, kv`expiry
      ensures Valid() && heldBy == old(heldBy)
      ensures locked <==> !failed && !old(kv.Present())
      ensures kv.expiry == if locked then Some(kv.now + StoredTTL(config)) else old(kv.expiry)
      ensures View(kv) == L.Next(old(View(kv)), L.TryLock(0, failed), StoredTTL(config))
      ensures locked <==> Value().phase == L.Locked
    {
      locked, failed := kv.SetIf(false, Seconds());
      if locked {
        stopCh := new Channel();
        doneCh := new Channel();
        lease := kv.now + Seconds() * SECOND;
      }
    }

    /** A tick of the refresher; a write that fails ends it. */
    method RefreshTick(kv: KeyValueStore) returns (failed: bool)
      requires Valid() && Value().refresher
      modifies this`lease, doneCh, kv`expiry
      ensures Valid()
      ensures kv.expiry == if !failed && old(kv.Present()) then Some(kv.now + StoredTTL(config)) else old(kv.expiry)
      ensures View(kv) == L.Next(old(View(kv)), L.Refresh(0, failed), StoredTTL(config))
    {
      var ok;
      ok, failed := kv.SetIf(true, Seconds());
      if ok {
        lease := kv.now + Seconds() * SECOND;
      } else {
        doneCh.closed := true;
      }
    }

    /** Unlock: nothing happens when the local mutex is free. Otherwise the refresher is stopped before the key goes. */
    method Unlock(kv: KeyValueStore) returns (failed: bool)
      requires Valid() && (Value().phase == L.Idle || Value().phase == L.Locked)
      modifies this, stopCh, doneCh, kv`expiry
      ensures Valid() && heldBy == None
      ensures kv.expiry == if old(heldBy).Some? && !failed then None else old(kv.expiry)
      ensures old(heldBy).None? ==> View(kv) == old(View(kv))
      ensures old(heldBy).Some? ==>
                var c := L.Next(old(View(kv)), L.Unlock(0), 0);
                var c1 := if old(Value().refresher) then L.Next(c, L.StopRefresher(0), 0) else c;
                View(kv) == L.Next(c1, L.Delete(0, failed), 0)
    {
      if heldBy.None? { return false; }
      stopCh.closed := true;
      doneCh.closed := true;
      stopCh, doneCh := null, null;
      failed := kv.Delete();
      heldBy := None;
    }
  }

  /** NewMutex rejects an empty key and a configuration that is not valid after its defaults are filled in. */
  method NewMutex(key: string, config: MutexConfig) returns (m: Mutex?)
    ensures var ttl := if config.ttl == 0 then 10_000_000_000 else config.ttl;
            var refresh := if config.refresh == 0 then 5_000_000_000 else config.refresh;
            var poll := if config.poll == 0 then 500_000_000 else config.poll;
            && (m != null <==> key != "" && 0 < 2 * refresh <= ttl && 0 < poll <= 1_000_000_000)
            && (m != null ==> m.config == MutexConfig(ttl, refresh, poll))
    ensures m != null ==> fresh(m) && m.Valid() && m.config == SetDefaults(config) && m.Value() == L.Node(None, L.Idle, false, 0)
  {
    if key == "" || !IsValid(SetDefaults(config)) { return null; }
    m := new Mutex(config);
  }
}
