/** Every interleaving of pushes, ticks, failing pre-runs and teardown of a channel's batchers. The plugin's map holds
    at most one batcher for the channel; looking it up and pushing, and testing that it is empty and deleting it, both
    happen under the plugin's mutex. */
module BatcherRuns {
  import opened CallModel
  import opened Batching

  /** `left` is how many items the current batch has yet to run, None between batches. */
  datatype Instance = Instance(
    size: nat, queue: seq<ID>, left: Option<nat>, stopAsked: bool, exited: bool, accepted: seq<ID>, trace: seq<Action>)

  /** All batchers ever made for the channel, and the one in the map. */
  datatype Plugin = Plugin(all: seq<Instance>, slot: Option<nat>)

  const NO_BATCHERS := Plugin([], None)

  datatype Step =
    | Create(size: nat)
    | Push(item: ID)
    | Tick(i: nat, preRunOK: bool)
    | RunItem(i: nat)
    | EndBatch(i: nat)
    | Drop
    | AskStop(i: nat)
    | Exit(i: nat)

  predicate Enabled(p: Plugin, s: Step) {
    match s
    case Create(size) => p.slot.None? && size > 0
    case Push(_) => p.slot.Some? && p.slot.value < |p.all|
    case Tick(i, _) => i < |p.all| && p.all[i].left.None? && !p.all[i].exited && p.all[i].queue != []
    case RunItem(i) => i < |p.all| && p.all[i].left.Some? && p.all[i].left.value > 0
    case EndBatch(i) => i < |p.all| && p.all[i].left == Some(0)
    case Drop => p.slot.Some? && p.slot.value < |p.all| && p.all[p.slot.value].queue == []
    case AskStop(i) => i < |p.all| && p.slot != Some(i) && !p.all[i].stopAsked
    case Exit(i) => i < |p.all| && p.all[i].stopAsked && p.all[i].left.None? && !p.all[i].exited
  }

  function After(b: Instance, s: Step): Instance {
    match s
    case Push(item) =>
      if |b.queue| < b.size then b.(queue := b.queue + [item], accepted := b.accepted + [item]) else b
    case Tick(_, true) => b.(left := Some(|b.queue|), trace := b.trace + [PreRun])
    case Tick(_, false) => b.(trace := b.trace + [PreRunFailed])
    case RunItem(_) =>
      // A receive from an empty channel would block for good.
      if b.queue == [] || b.left.None? || b.left.value == 0 then b
      else b.(queue := b.queue[1..], left := Some(b.left.value - 1), trace := b.trace + [Ran(b.queue[0])])
    case EndBatch(_) => b.(left := None, trace := b.trace + [PostRun])
    case AskStop(_) => b.(stopAsked := true)
    case Exit(_) => b.(exited := true)
    case Create(_) => b
    case Drop => b
  }

  function Next(p: Plugin, s: Step): Plugin
    requires Enabled(p, s)
  {
    match s
    case Create(size) => Plugin(p.all + [Instance(size, [], None, false, false, [], [])], Some(|p.all|))
    case Drop => p.(slot := None)
    case Push(_) => p.(all := p.all[p.slot.value := After(p.all[p.slot.value], s)])
    case Tick(i, _) => p.(all := p.all[i := After(p.all[i], s)])
    case RunItem(i) => p.(all := p.all[i := After(p.all[i], s)])
    case EndBatch(i) => p.(all := p.all[i := After(p.all[i], s)])
    case AskStop(i) => p.(all := p.all[i := After(p.all[i], s)])
    case Exit(i) => p.(all := p.all[i := After(p.all[i], s)])
  }

  ghost predicate ValidRun(p: Plugin, steps: seq<Step>)
    decreases |steps|
  {
    steps == [] || (Enabled(p, steps[0]) && ValidRun(Next(p, steps[0]), steps[1..]))
  }

  ghost function Run(p: Plugin, steps: seq<Step>): Plugin
    requires ValidRun(p, steps)
    decreases |steps|
  {
    if steps == [] then p else Run(Next(p, steps[0]), steps[1..])
  }

  ghost predicate Good(b: Instance, mapped: bool) {
    && 0 < b.size && |b.queue| <= b.size
    && Executed(b.trace) + b.queue == b.accepted
    && InBatch(b.trace) == Some(b.left.Some?)
    && (b.left.Some? ==> b.left.value <= |b.queue|)
    && (!mapped ==> b.queue == [])
    && (mapped ==> !b.stopAsked) && (b.exited ==> b.stopAsked)
  }

  ghost predicate Inv(p: Plugin) {
    && (p.slot.Some? ==> p.slot.value < |p.all|)
    && forall i :: 0 <= i < |p.all| ==> Good(p.all[i], p.slot == Some(i))
  }

  /** The head of the queue, once run, is still accounted for. */
  lemma TakenFromQueue(done: seq<ID>, queue: seq<ID>)
    requires queue != []
    ensures (done + [queue[0]]) + queue[1..] == done + queue
  {
  }

  lemma GoodAfter(b: Instance, s: Step, mapped: bool)
    requires Good(b, mapped) && !s.Create? && !s.Drop?
    requires s.Push? ==> mapped
    requires s.Tick? ==> b.left.None? && b.queue != []
    requires s.RunItem? ==> b.left.Some? && b.left.value > 0
    requires s.EndBatch? ==> b.left == Some(0)
    requires s.AskStop? ==> !mapped
    requires s.Exit? ==> b.stopAsked
    ensures Good(After(b, s), mapped)
  {
    match s
    case Tick(_, ok) => Appended(b.trace, if ok then PreRun else PreRunFailed);
    case RunItem(_) =>
      Appended(b.trace, Ran(b.queue[0]));
      TakenFromQueue(Executed(b.trace), b.queue);
    case EndBatch(_) => Appended(b.trace, PostRun);
    case _ =>
  }

  lemma StepKeeps(p: Plugin, s: Step)
    requires Inv(p) && Enabled(p, s)
    ensures Inv(Next(p, s))
  {
    match s
    case Create(_) => assert forall i :: 0 <= i < |p.all| ==> Good(p.all[i], false);
    case Drop => assert forall i :: 0 <= i < |p.all| ==> Good(p.all[i], p.slot == Some(i));
    case Push(_) => GoodAfter(p.all[p.slot.value], s, true);
    case Tick(i, _) => GoodAfter(p.all[i], s, p.slot == Some(i));
    case RunItem(i) => GoodAfter(p.all[i], s, p.slot == Some(i));
    case EndBatch(i) => GoodAfter(p.all[i], s, p.slot == Some(i));
    case AskStop(i) => GoodAfter(p.all[i], s, p.slot == Some(i));
    case Exit(i) => GoodAfter(p.all[i], s, p.slot == Some(i));
  }

  lemma {:induction false} RunKeeps(p: Plugin, steps: seq<Step>)
    requires Inv(p) && ValidRun(p, steps)
    ensures Inv(Run(p, steps))
    decreases |steps|
  {
    if steps != [] {
      StepKeeps(p, steps[0]);
      RunKeeps(Next(p, steps[0]), steps[1..]);
    }
  }

  /** No accepted operation is lost, whatever the interleaving: what has run, followed by what is queued, is what was
      accepted, in that order; the queue never exceeds its size; a running batch always finds its next item; and every
      item that ran did so after a successful pre-run whose post-run had not happened. */
  lemma NothingLost(steps: seq<Step>, i: nat)
    requires ValidRun(NO_BATCHERS, steps) && i < |Run(NO_BATCHERS, steps).all|
    ensures var b := Run(NO_BATCHERS, steps).all[i];
            && Executed(b.trace) + b.queue == b.accepted && |b.queue| <= b.size
            && (b.left.Some? ==> b.left.value <= |b.queue|)
            && (forall k :: 0 <= k < |b.trace| && b.trace[k].Ran? ==>
                  exists o :: 0 <= o < k && b.trace[o] == PreRun && forall j :: o < j < k ==> b.trace[j].Ran?)
  {
    RunKeeps(NO_BATCHERS, steps);
    var b := Run(NO_BATCHERS, steps).all[i];
    assert Good(b, Run(NO_BATCHERS, steps).slot == Some(i));
    forall k | 0 <= k < |b.trace| && b.trace[k].Ran?
      ensures exists o :: 0 <= o < k && b.trace[o] == PreRun && forall j :: o < j < k ==> b.trace[j].Ran?
    {
      var o := RanInsideBatch(b.trace, k);
    }
  }

  /** A batcher that was dropped from the map has run everything it accepted, and accepts nothing ever after. */
  lemma {:induction false} DroppedIsDone(p: Plugin, steps: seq<Step>, i: nat)
    requires Inv(p) && ValidRun(p, steps) && i < |p.all| && p.slot != Some(i)
    ensures Executed(p.all[i].trace) == p.all[i].accepted
    ensures var p' := Run(p, steps); i < |p'.all| && p'.slot != Some(i) && p'.all[i].accepted == p.all[i].accepted
    decreases |steps|
  {
    assert Good(p.all[i], false);
    if steps != [] {
      StepKeeps(p, steps[0]);
      DroppedIsDone(Next(p, steps[0]), steps[1..], i);
    }
  }
}
