/** The racing triggers that end a session (server/session.go, server/plugin.go, server/websocket.go): goroutines that
    each swap an atomic flag and, if they were first, close a channel or remove the session. Swap and close are
    separate steps, so anything may happen in between. */
module SessionTriggers {
  import opened CallModel

  datatype Channel = WsClose | WsReconnect | RtcClose | Leave

  /** A session object: the flags of its four channels, how often each channel was closed, its removed flag, and how often
      its removal ran or was lost. A reconnect makes another object for the same original connection. */
  datatype Object = Object(originalConnID: ID, flags: set<Channel>, closes: multiset<Channel>, removed: bool, removals: nat, losses: nat)

  /** What a goroutine will do next to object `o`. */
  datatype Todo =
    | Close(o: nat, ch: Channel, thenRemove: bool)
    | SwapRemoved(o: nat)
    | Remove(o: nat)

  /** `inCall` are the sessions in the call state; `left` counts the user_left announcements by session. */
  datatype World = World(objects: seq<Object>, todo: multiset<Todo>, inCall: set<ID>, joined: set<ID>, left: multiset<ID>)

  const EMPTY := World([], multiset{}, {}, {}, multiset{})

  /** Trigger is one of the ten places that swap a channel's flag: with `winnerRemoves` the first goes on to remove the
      session, with `allRemove` (the RTC close callback of a cluster node) everyone does. TimedOut is handleLeave after its
      wait. Act runs one pending goroutine. Lose is a removal that never runs: a full batcher refuses it, or the call cannot be
      locked. */
  datatype Step =
    | Join(connID: ID)
    | NewObject(originalConnID: ID)
    | Trigger(o: nat, ch: Channel, winnerRemoves: bool, allRemove: bool)
    | TimedOut(o: nat)
    | Act(t: Todo)
    | Lose(o: nat)

  predicate Enabled(w: World, s: Step) {
    match s
    case Join(connID) => connID !in w.joined
    case NewObject(_) => true
    case Trigger(o, _, _, _) => o < |w.objects|
    case TimedOut(o) => o < |w.objects|
    case Act(t) => t in w.todo && t.o < |w.objects|
    case Lose(o) => Remove(o) in w.todo && o < |w.objects|
  }

  function Next(w: World, s: Step): World
    requires Enabled(w, s)
  {
    match s
    case Join(connID) => w.(inCall := w.inCall + {connID}, joined := w.joined + {connID})
    case NewObject(id) => w.(objects := w.objects + [Object(id, {}, multiset{}, false, 0, 0)])
    case Trigger(o, ch, winnerRemoves, allRemove) =>
      var x := w.objects[o];
      if ch !in x.flags then
        w.(objects := w.objects[o := x.(flags := x.flags + {ch})],
           todo := w.todo + multiset{Close(o, ch, winnerRemoves || allRemove)})
      else if allRemove then w.(todo := w.todo + multiset{SwapRemoved(o)})
      else w
    case TimedOut(o) => w.(todo := w.todo + multiset{SwapRemoved(o)})
    case Act(t) => Acted(w.(todo := w.todo - multiset{t}), t)
    case Lose(o) =>
      w.(objects := w.objects[o := w.objects[o].(losses := w.objects[o].losses + 1)], todo := w.todo - multiset{Remove(o)})
  }

  function Acted(w: World, t: Todo): World
    requires t.o < |w.objects|
  {
    var x := w.objects[t.o];
    match t
    case Close(o, ch, thenRemove) =>
      w.(objects := w.objects[o := x.(closes := x.closes + multiset{ch})],
         todo := if thenRemove then w.todo + multiset{SwapRemoved(o)} else w.todo)
    case SwapRemoved(o) =>
      if x.removed then w
      else w.(objects := w.objects[o := x.(removed := true)], todo := w.todo + multiset{Remove(o)})
    case Remove(o) =>
      // removeUserSession, under the call lock.
      var w1 := w.(objects := w.objects[o := x.(removals := x.removals + 1)]);
      if x.originalConnID in w.inCall then
        w1.(inCall := w.inCall - {x.originalConnID}, left := w.left + multiset{x.originalConnID})
      else w1
  }

  ghost predicate ValidRun(w: World, steps: seq<Step>)
    decreases |steps|
  {
    steps == [] || (Enabled(w, steps[0]) && ValidRun(Next(w, steps[0]), steps[1..]))
  }

  ghost function Run(w: World, steps: seq<Step>): World
    requires ValidRun(w, steps)
    decreases |steps|
  {
    if steps == [] then w else Run(Next(w, steps[0]), steps[1..])
  }

  // ----- the invariant -----

  function Closing(todo: multiset<Todo>, o: nat, ch: Channel): nat {
    todo[Close(o, ch, true)] + todo[Close(o, ch, false)]
  }

  /** Whoever swapped a flag has either done its part or is still to do it, and nobody else has or will. */
  ghost predicate ObjectOK(x: Object, todo: multiset<Todo>, o: nat) {
    && (forall ch :: x.closes[ch] + Closing(todo, o, ch) == if ch in x.flags then 1 else 0)
    && x.removals + x.losses + todo[Remove(o)] == if x.removed then 1 else 0
  }

  ghost predicate Inv(w: World) {
    ObjectsOK(w) && SessionsOK(w) && forall t :: t in w.todo ==> t.o < |w.objects|
  }

  ghost predicate ObjectsOK(w: World) {
    forall o :: 0 <= o < |w.objects| ==> ObjectOK(w.objects[o], w.todo, o)
  }

  ghost predicate SessionsOK(w: World) {
    Accounted(w.inCall, w.joined, w.left)
  }

  /** The sessions that have joined are in the call, or have been announced as left, once. */
  ghost predicate Accounted(inCall: set<ID>, joined: set<ID>, left: multiset<ID>) {
    && (forall s :: left[s] <= 1)
    && (forall s :: s in inCall ==> s in joined && s !in left)
    && (forall s :: s in left ==> s in joined)
    && (forall s :: s in joined && s !in inCall ==> s in left)
  }

  lemma CloseKeeps(w: World, t: Todo)
    requires Inv(w) && Enabled(w, Act(t)) && t.Close?
    ensures ObjectsOK(Next(w, Act(t)))
  {
    var w' := Next(w, Act(t));
    forall o | 0 <= o < |w'.objects| ensures ObjectOK(w'.objects[o], w'.todo, o) {
      assert ObjectOK(w.objects[o], w.todo, o);
      assert w'.todo[Remove(o)] == w.todo[Remove(o)];
      forall ch ensures w'.objects[o].closes[ch] + Closing(w'.todo, o, ch) == w.objects[o].closes[ch] + Closing(w.todo, o, ch) {}
    }
  }

  lemma SwapKeeps(w: World, t: Todo)
    requires Inv(w) && Enabled(w, Act(t)) && t.SwapRemoved?
    ensures ObjectsOK(Next(w, Act(t)))
  {
    var w' := Next(w, Act(t));
    forall o | 0 <= o < |w'.objects| ensures ObjectOK(w'.objects[o], w'.todo, o) {
      assert ObjectOK(w.objects[o], w.todo, o);
      forall ch ensures Closing(w'.todo, o, ch) == Closing(w.todo, o, ch) {}
    }
  }

  lemma RemoveKeeps(w: World, t: Todo)
    requires Inv(w) && Enabled(w, Act(t)) && t.Remove?
    ensures ObjectsOK(Next(w, Act(t)))
  {
    var w' := Next(w, Act(t));
    forall o | 0 <= o < |w'.objects| ensures ObjectOK(w'.objects[o], w'.todo, o) {
      assert ObjectOK(w.objects[o], w.todo, o);
      forall ch ensures Closing(w'.todo, o, ch) == Closing(w.todo, o, ch) {}
    }
  }

  lemma LoseKeeps(w: World, l: nat)
    requires Inv(w) && Enabled(w, Lose(l))
    ensures ObjectsOK(Next(w, Lose(l)))
  {
    var w' := Next(w, Lose(l));
    forall o | 0 <= o < |w'.objects| ensures ObjectOK(w'.objects[o], w'.todo, o) {
      assert ObjectOK(w.objects[o], w.todo, o);
      forall ch ensures Closing(w'.todo, o, ch) == Closing(w.todo, o, ch) {}
    }
  }

  lemma TriggerKeeps(w: World, s: Step)
    requires Inv(w) && Enabled(w, s) && s.Trigger?
    ensures ObjectsOK(Next(w, s))
  {
    var w' := Next(w, s);
    forall o | 0 <= o < |w'.objects| ensures ObjectOK(w'.objects[o], w'.todo, o) {
      assert ObjectOK(w.objects[o], w.todo, o);
      assert w'.todo[Remove(o)] == w.todo[Remove(o)];
    }
  }

  lemma NewcomerKeeps(w: World, s: Step)
    requires Inv(w) && Enabled(w, s) && (s.Join? || s.NewObject? || s.TimedOut?)
    ensures ObjectsOK(Next(w, s))
  {
    var w' := Next(w, s);
    forall o | 0 <= o < |w'.objects| ensures ObjectOK(w'.objects[o], w'.todo, o) {
      if o < |w.objects| {
        assert ObjectOK(w.objects[o], w.todo, o);
        assert w'.todo[Remove(o)] == w.todo[Remove(o)];
      }
    }
  }

  lemma Arrives(inCall: set<ID>, joined: set<ID>, left: multiset<ID>, x: ID)
    requires Accounted(inCall, joined, left) && x !in joined
    ensures Accounted(inCall + {x}, joined + {x}, left)
  {
  }

  lemma Departs(inCall: set<ID>, joined: set<ID>, left: multiset<ID>, x: ID)
    requires Accounted(inCall, joined, left) && x in inCall
    ensures Accounted(inCall - {x}, joined, left + multiset{x})
  {
  }

  lemma SessionsKept(w: World, s: Step)
    requires SessionsOK(w) && Enabled(w, s)
    ensures SessionsOK(Next(w, s))
  {
    match s
    case Join(connID) => Arrives(w.inCall, w.joined, w.left, connID);
    case Act(Remove(o)) =>
      var x := w.objects[o].originalConnID;
      if x in w.inCall { Departs(w.inCall, w.joined, w.left, x); }
    case _ =>
  }

  lemma TodoKept(w: World, s: Step)
    requires (forall t :: t in w.todo ==> t.o < |w.objects|) && Enabled(w, s)
    ensures var w' := Next(w, s); forall t :: t in w'.todo ==> t.o < |w'.objects|
  {
  }

  lemma StepKeeps(w: World, s: Step)
    requires Inv(w) && Enabled(w, s)
    ensures Inv(Next(w, s))
  {
    SessionsKept(w, s);
    TodoKept(w, s);
    if s.Lose? {
      LoseKeeps(w, s.o);
    } else if s.Trigger? {
      TriggerKeeps(w, s);
    } else if !s.Act? {
      NewcomerKeeps(w, s);
    } else {
      match s.t
      case Close(_, _, _) => CloseKeeps(w, s.t);
      case SwapRemoved(_) => SwapKeeps(w, s.t);
      case Remove(_) => RemoveKeeps(w, s.t);
    }
  }

  lemma {:induction false} RunKeeps(w: World, steps: seq<Step>)
    requires Inv(w) && ValidRun(w, steps)
    ensures Inv(Run(w, steps))
    decreases |steps|
  {
    if steps != [] {
      StepKeeps(w, steps[0]);
      RunKeeps(Next(w, steps[0]), steps[1..]);
    }
  }

  /** However the triggers interleave, no channel of a session is closed twice (which would panic), the removal runs at
      most once for each session object, and a session is taken from the call and announced as left at most once even
      when a reconnect has left several objects for it. */
  lemma RemovalHappensOnce(steps: seq<Step>)
    requires ValidRun(EMPTY, steps)
    ensures var w := Run(EMPTY, steps);
            && (forall o, ch :: 0 <= o < |w.objects| ==> w.objects[o].closes[ch] <= 1)
            && (forall o :: 0 <= o < |w.objects| ==> w.objects[o].removals <= 1)
            && (forall s :: w.left[s] <= 1)
            && (forall s :: w.left[s] == 1 <==> s in w.joined && s !in w.inCall)
  {
    RunKeeps(EMPTY, steps);
    var w := Run(EMPTY, steps);
    forall o, ch | 0 <= o < |w.objects| ensures w.objects[o].closes[ch] <= 1 && w.objects[o].removals <= 1 {
      assert ObjectOK(w.objects[o], w.todo, o);
    }
  }

  /** A joined session has left the call exactly when the removal ran for one of its objects. */
  ghost predicate Settled(w: World) {
    && (forall o :: 0 <= o < |w.objects| && w.objects[o].removals > 0 ==> w.objects[o].originalConnID !in w.inCall)
    && (forall s :: s in w.joined && s !in w.inCall ==>
          exists o :: 0 <= o < |w.objects| && w.objects[o].removals > 0 && w.objects[o].originalConnID == s)
  }

  /** Session objects are made for connections that have joined. */
  ghost predicate ObjectsJoined(w: World, steps: seq<Step>)
    requires ValidRun(w, steps)
    decreases |steps|
  {
    && (forall o :: 0 <= o < |w.objects| ==> w.objects[o].originalConnID in w.joined)
    && (steps == [] || ObjectsJoined(Next(w, steps[0]), steps[1..]))
  }

  /** What a step does to the removal counts and the sessions in the call; `ran` is the object whose removal it ran. */
  ghost predicate Grown(w: World, w': World, ran: Option<nat>) {
    && |w.objects| <= |w'.objects|
    && (forall o :: 0 <= o < |w.objects| ==> w'.objects[o].originalConnID == w.objects[o].originalConnID)
    && (forall o :: 0 <= o < |w.objects| && ran != Some(o) ==> w'.objects[o].removals == w.objects[o].removals)
    && (forall o :: |w.objects| <= o < |w'.objects| ==> w'.objects[o].removals == 0)
    && if ran.Some? then
         && ran.value < |w.objects| && w'.objects[ran.value].removals > 0
         && w'.joined == w.joined && w'.inCall == w.inCall - {w.objects[ran.value].originalConnID}
       else
         w'.joined - w'.inCall <= w.joined - w.inCall && w'.inCall - w.inCall <= w'.joined - w.joined
  }

  lemma RemoveGrows(w: World, o: nat)
    requires Enabled(w, Act(Remove(o)))
    ensures Grown(w, Next(w, Act(Remove(o))), Some(o))
  {
    assert w.inCall - {w.objects[o].originalConnID} == if w.objects[o].originalConnID in w.inCall then w.inCall - {w.objects[o].originalConnID} else w.inCall;
  }

  lemma ActGrows(w: World, t: Todo)
    requires Enabled(w, Act(t)) && !t.Remove?
    ensures Grown(w, Next(w, Act(t)), None)
  {
    SameCounts(w, Next(w, Act(t)), t.o);
  }

  lemma OthersGrow(w: World, s: Step)
    requires Enabled(w, s) && !(s.Act? && s.t.Remove?)
    ensures Grown(w, Next(w, s), None)
  {
    var w' := Next(w, s);
    match s {
      case Join(_) =>
      case NewObject(_) =>
      case Trigger(o, _, _, _) => SameCounts(w, w', o);
      case TimedOut(o) => SameCounts(w, w', o);
      case Act(t) => ActGrows(w, t);
      case Lose(o) => SameCounts(w, w', o);
    }
  }

  lemma SameCounts(w: World, w': World, o: nat)
    requires o < |w.objects| && |w'.objects| == |w.objects| && w'.inCall == w.inCall && w'.joined == w.joined
    requires w'.objects == w.objects[o := w'.objects[o]]
    requires w'.objects[o].originalConnID == w.objects[o].originalConnID && w'.objects[o].removals == w.objects[o].removals
    ensures Grown(w, w', None)
  {
  }

  lemma SettledStep(w: World, s: Step)
    requires Settled(w) && Enabled(w, s) && forall o :: 0 <= o < |w.objects| ==> w.objects[o].originalConnID in w.joined
    ensures Settled(Next(w, s))
  {
    if s.Act? && s.t.Remove? {
      RemoveGrows(w, s.t.o);
      Resettled(w, Next(w, s), Some(s.t.o));
    } else {
      OthersGrow(w, s);
      Resettled(w, Next(w, s), None);
    }
  }

  lemma Resettled(w: World, w': World, ran: Option<nat>)
    requires Settled(w) && Grown(w, w', ran)
    requires forall o :: 0 <= o < |w.objects| ==> w.objects[o].originalConnID in w.joined
    ensures Settled(w')
  {
    forall x | x in w'.joined && x !in w'.inCall
      ensures exists o :: 0 <= o < |w'.objects| && w'.objects[o].removals > 0 && w'.objects[o].originalConnID == x
    {
      assert ran.None? ==> x in w'.joined - w'.inCall;
      if x in w.inCall {
        assert w'.objects[ran.value].originalConnID == x;
      } else {
        var o :| 0 <= o < |w.objects| && w.objects[o].removals > 0 && w.objects[o].originalConnID == x;
        assert w'.objects[o].originalConnID == x;
      }
    }
    forall o | 0 <= o < |w'.objects| && w'.objects[o].removals > 0 ensures w'.objects[o].originalConnID !in w'.inCall {
      if ran.None? {
        assert w.objects[o].originalConnID !in w.inCall;
        assert w.objects[o].originalConnID in w.joined && w.objects[o].originalConnID !in w'.inCall - w.inCall;
      }
    }
  }

  lemma {:induction false} SettledKept(w: World, steps: seq<Step>)
    requires Settled(w) && ValidRun(w, steps) && ObjectsJoined(w, steps)
    ensures Settled(Run(w, steps))
    decreases |steps|
  {
    if steps != [] {
      SettledStep(w, steps[0]);
      SettledKept(Next(w, steps[0]), steps[1..]);
    }
  }

  /** When all goroutines have finished, every channel whose flag was swapped has been closed, once, and every removal that was
      won has run or was lost, once; a session that joined is out of the call if and only if some trigger won the
      race to remove one of its objects and the removal was not lost: losing races leaves nothing behind, and a removal
      lost after the race was won is not made up for by any other trigger on that object. */
  lemma LeavesIffRemovalRuns(steps: seq<Step>, s: ID)
    requires ValidRun(EMPTY, steps) && ObjectsJoined(EMPTY, steps)
    requires Run(EMPTY, steps).todo == multiset{} && s in Run(EMPTY, steps).joined
    ensures var w := Run(EMPTY, steps);
            && (forall o, ch :: 0 <= o < |w.objects| ==> w.objects[o].closes[ch] == if ch in w.objects[o].flags then 1 else 0)
            && (forall o :: 0 <= o < |w.objects| ==> w.objects[o].removals + w.objects[o].losses == if w.objects[o].removed then 1 else 0)
    ensures var w := Run(EMPTY, steps);
            s !in w.inCall <==>
              exists o :: 0 <= o < |w.objects| && w.objects[o].removed && w.objects[o].losses == 0 && w.objects[o].originalConnID == s
  {
    RunKeeps(EMPTY, steps);
    SettledKept(EMPTY, steps);
    var w := Run(EMPTY, steps);
    assert forall o :: 0 <= o < |w.objects| ==> ObjectOK(w.objects[o], multiset{}, o);
    if o :| 0 <= o < |w.objects| && w.objects[o].removals > 0 && w.objects[o].originalConnID == s { assert w.objects[o].removed; }
  }
}
