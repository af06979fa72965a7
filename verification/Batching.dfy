/** The batcher (server/batching/batcher.go) and how the plugin shares and tears it down (server/session.go,
    server/websocket.go). */
module Batching {
  import opened CallModel

  /** What a batcher's goroutine has done. */
  datatype Action = PreRun | PreRunFailed | Ran(item: ID) | PostRun

  function Executed(trace: seq<Action>): seq<ID> {
    if trace == [] then []
    else Executed(trace[..|trace| - 1]) + (if trace[|trace| - 1].Ran? then [trace[|trace| - 1].item] else [])
  }

  /** Reads a trace and tells whether a batch is open at its end; None if some item ran outside a batch, a batch
      was start inside another, or one was closed that was not open. */
  function InBatch(trace: seq<Action>): Option<bool> {
    if trace == [] then Some(false)
    else
      var before := InBatch(trace[..|trace| - 1]);
      if before.None? then None
      else
        match trace[|trace| - 1]
        case PreRun => if before.value then None else Some(true)
        case PreRunFailed => if before.value then None else before
        case Ran(_) => if before.value then before else None
        case PostRun => if before.value then Some(false) else None
  }

  /** Between an item's run and the beginning of the trace there is a successful pre-run with no post-run after it. */
  lemma {:induction false} RanInsideBatch(trace: seq<Action>, k: nat) returns (p: nat)
    requires InBatch(trace).Some? && k < |trace| && trace[k].Ran?
    ensures p < k && trace[p] == PreRun && forall i :: p < i < k ==> trace[i].Ran?
  {
    PrefixInBatch(trace, k + 1);
    assert trace[..k + 1][..k] == trace[..k];
    p := LastOpening(trace[..k]);
  }

  lemma {:induction false} PrefixInBatch(trace: seq<Action>, k: nat)
    requires InBatch(trace).Some? && k <= |trace|
    ensures InBatch(trace[..k]).Some?
    decreases |trace| - k
  {
    if k == |trace| {
      assert trace[..k] == trace;
    } else {
      PrefixInBatch(trace, k + 1);
      assert trace[..k + 1][..k] == trace[..k];
    }
  }

  lemma {:induction false} LastOpening(trace: seq<Action>) returns (p: nat)
    requires InBatch(trace) == Some(true)
    ensures p < |trace| && trace[p] == PreRun && forall i :: p < i < |trace| ==> trace[i].Ran?
    decreases |trace|
  {
    var n := |trace| - 1;
    if trace[n] == PreRun {
      p := n;
    } else {
      p := LastOpening(trace[..n]);
      forall i | p < i < |trace| ensures trace[i].Ran? { if i < n { assert trace[i] == trace[..n][i]; } }
    }
  }

  lemma Appended(trace: seq<Action>, a: Action)
    ensures Executed(trace + [a]) == Executed(trace) + (if a.Ran? then [a.item] else [])
    ensures InBatch(trace + [a]).Some? <==>
              InBatch(trace).Some? && (if a.Ran? || a.PostRun? then InBatch(trace).value else !InBatch(trace).value)
    ensures InBatch(trace + [a]).Some? ==> InBatch(trace + [a]).value == (a.PreRun? || a.Ran?)
  {
    assert (trace + [a])[..|trace + [a]| - 1] == trace;
  }

  // ----- the object -----

  class Batcher {
    const size: nat
    var queue: seq<ID>
    var batches: nat
    ghost var accepted: seq<ID>
    ghost var trace: seq<Action>

    ghost predicate Valid()
      reads this
    {
      && 0 < size && |queue| <= size
      && Executed(trace) + queue == accepted
      && InBatch(trace) == Some(false)
    }

    constructor (size: nat)
      requires size > 0
      ensures Valid() && this.size == size && queue == [] && accepted == [] && trace == [] && batches == 0
    {
      this.size := size;
      queue, batches, accepted, trace := [], 0, [], [];
    }

    /** A full queue refuses the item; otherwise it goes last. */
    method Push(item: ID) returns (ok: bool)
      modifies this`queue, this`accepted
      ensures ok <==> |old(queue)| < size
      ensures queue == (if ok then old(queue) + [item] else old(queue))
      ensures accepted == (if ok then old(accepted) + [item] else old(accepted))
    {
      ok := |queue| < size;
      if ok { queue, accepted := queue + [item], accepted + [item]; }
    }

    predicate Empty()
      reads this
    {
      queue == []
    }

    ghost method Note(a: Action)
      requires InBatch(trace) == Some(a.Ran? || a.PostRun?)
      modifies this`trace
      ensures trace == old(trace) + [a] && InBatch(trace) == Some(a.PreRun? || a.Ran?)
      ensures Executed(trace) == Executed(old(trace)) + (if a.Ran? then [a.item] else [])
    {
      Appended(trace, a);
      trace := trace + [a];
    }

    /** The pushes of other goroutines that get in before the next receive. */
    method Arrive(items: seq<ID>)
      requires |queue| <= size && Executed(trace) + queue == accepted
      modifies this`queue, this`accepted
      ensures |queue| <= size && Executed(trace) + queue == accepted
      ensures |old(queue)| <= |queue| && queue[..|old(queue)|] == old(queue)
    {
      for i := 0 to |items|
        invariant |queue| <= size && Executed(trace) + queue == accepted
        invariant |old(queue)| <= |queue| && queue[..|old(queue)|] == old(queue)
      {
        var ok := Push(items[i]);
      }
    }

    /** One receive and run inside a batch. */
    method RunNext(items: seq<ID>) returns (item: ID)
      requires 0 < |queue| <= size && Executed(trace) + queue == accepted && InBatch(trace) == Some(true)
      modifies this`queue, this`accepted, this`trace
      ensures |queue| <= size && Executed(trace) + queue == accepted && InBatch(trace) == Some(true)
      ensures item == old(queue)[0] && trace == old(trace) + [Ran(item)] && Executed(trace) == Executed(old(trace)) + [item]
      ensures |old(queue)| - 1 <= |queue| && queue[..|old(queue)| - 1] == old(queue)[1..]
    {
      Arrive(items);
      ghost var arrived := queue;
      item := queue[0];
      queue := queue[1..];
      assert item == arrived[..|old(queue)|][0];
      assert queue[..|old(queue)| - 1] == arrived[..|old(queue)|][1..];
      Note(Ran(item));
    }

    /** One tick of the loop started by Start. A batch is the items queued when the tick comes: exactly those run, in
        order, whatever arrives meanwhile; a failing pre-run leaves them all queued for a later tick. */
    method Tick(preRunOK: bool, arrivals: seq<seq<ID>>)
      requires Valid() && |arrivals| == |queue|
      modifies this
      ensures Valid()
      ensures batches == old(batches) + (if old(queue) != [] then 1 else 0)
      ensures if old(queue) == [] then trace == old(trace) && queue == []
              else if !preRunOK then trace == old(trace) + [PreRunFailed] && queue == old(queue)
              else trace == old(trace) + [PreRun] + Runs(old(queue)) + [PostRun]
    {
      if |queue| == 0 { return; }
      batches := batches + 1;
      if !preRunOK {
        Note(PreRunFailed);
        return;
      }
      Note(PreRun);
      RunBatch(arrivals);
      Note(PostRun);
    }

    method RunBatch(arrivals: seq<seq<ID>>)
      requires |queue| == |arrivals| && |queue| <= size && Executed(trace) + queue == accepted && InBatch(trace) == Some(true)
      modifies this`queue, this`accepted, this`trace
      ensures |queue| <= size && Executed(trace) + queue == accepted && InBatch(trace) == Some(true)
      ensures trace == old(trace) + Runs(old(queue)) && Executed(trace) == Executed(old(trace)) + old(queue)
    {
      var batchSize := |queue|;
      ghost var batch, start := queue, trace;
      for i := 0 to batchSize
        invariant batchSize - i <= |queue| <= size && queue[..batchSize - i] == batch[i..]
        invariant trace == start + Runs(batch[..i]) && Executed(trace) == Executed(start) + batch[..i]
        invariant InBatch(trace) == Some(true) && Executed(trace) + queue == accepted
      {
        ghost var before := queue;
        var item := RunNext(arrivals[i]);
        NextOfBatch(before, queue, batch, i);
        assert batch[..i + 1] == batch[..i] + [batch[i]];
      }
      assert batch[..batchSize] == batch;
    }
  }

  function Runs(items: seq<ID>): seq<Action> {
    if items == [] then [] else Runs(items[..|items| - 1]) + [Ran(items[|items| - 1])]
  }

  lemma NextOfBatch(q: seq<ID>, q': seq<ID>, batch: seq<ID>, i: nat)
    requires i < |batch| && |batch| - i <= |q| && q[..|batch| - i] == batch[i..]
    requires |q| - 1 <= |q'| && q'[..|q| - 1] == q[1..]
    ensures q[0] == batch[i] && q'[..|batch| - (i + 1)] == batch[i + 1..]
  {
    assert q[0] == q[..|batch| - i][0];
    forall k | 0 <= k < |batch| - (i + 1) ensures q'[k] == batch[i + 1 + k] {
      assert q'[k] == q'[..|q| - 1][k] == q[1 + k] == q[..|batch| - i][1 + k];
    }
  }

  /** NewBatcher. */
  method NewBatcher(interval: int, size: int) returns (b: Batcher?)
    ensures b == null <==> interval <= 0 || size <= 0
    ensures b != null ==> fresh(b) && b.Valid() && b.size == size && b.queue == []
  {
    if interval <= 0 || size <= 0 { return null; }
    b := new Batcher(size);
  }
}
