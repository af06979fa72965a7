/** The callbacks of a batch, run one after the other on the one state its pre-run read (server/websocket.go,
    server/session.go), against a run of the engine. */
module BatchHandlers {
  import opened CallModel
  import opened CallStore
  import S = CallSessions
  import opened CallJobs
  import opened JobSafety
  import opened CallEngine
  import opened CallInvariant
  import J = BatchJoins
  import opened CallHeap
  import opened CallHandlers
  import opened JoinHandler
  import E = EntryHandler
  import L = BatchLeaves
  import B = BatchCaptions
  import H = LeaveHandler

  /** The engine's run over these steps ends in w1 and has published these messages. */
  ghost predicate Reaches(w: World, limit: nat, steps: seq<Step>, w1: World, msgs: seq<Msg>) {
    ValidRun(w, limit, steps) && Run(w, limit, steps) == w1 && w1.log == w.log + msgs
  }

  lemma ReachesMore(w: World, limit: nat, steps: seq<Step>, w1: World, msgs: seq<Msg>, s: Step, more: seq<Msg>)
    requires Reaches(w, limit, steps, w1, msgs) && Enabled(w1, limit, s) && Next(w1, limit, s).log == w1.log + more
    ensures Reaches(w, limit, steps + [s], Next(w1, limit, s), msgs + more)
  {
    RunSnoc(w, limit, steps, s);
    Regroup(w.log, msgs, more);
  }

  // ----- joins -----

  ghost predicate ReadyItem(a: S.JoinArgs, ch: ID, w: World) {
    && a.channelID == ch && a.now > 0 && a.userID != NONE
    && a.connID != NONE && a.connID !in w.conns
    && a.newCallID != NONE && a.newCallID !in w.db.calls && J.NoJobsYet(w.db.jobs, a.newCallID)
  }

  /** The queued joins of a channel: each on its own connection, each with an ID of its own for a call it may start. */
  ghost predicate Ready(items: seq<S.JoinArgs>, ch: ID, w: World) {
    && (forall i :: 0 <= i < |items| ==> ReadyItem(items[i], ch, w))
    && (forall i, k :: 0 <= i < k < |items| ==> items[i].connID != items[k].connID && items[i].newCallID != items[k].newCallID)
  }

  lemma JoinJobRows(st: Option<CallState>, db: Store, limit: nat, a: S.JoinArgs, callID: ID)
    requires J.NoJobsYet(db.jobs, callID)
    requires st.Some? ==> Backed(st.value.jobs, db.jobs)
    ensures J.NoJobsYet(S.JoinCall(st, db, limit, a).db.jobs, callID)
  {
  }

  lemma JoinRows(w: World, limit: nat, a: S.JoinArgs)
    requires Inv(w, limit) && Enabled(w, limit, Join(a))
    ensures var w' := Next(w, limit, Join(a));
            w'.conns <= w.conns + {a.connID} && w'.db.calls.Keys <= w.db.calls.Keys + {a.newCallID}
  {
    if S.Joined(ReadState(w.db, a.channelID), w.db, limit, a) {
      BaseFacts(w, limit, a);
      NewCallIffSingleSession(w, limit, a);
    }
  }

  lemma ReadyAfter(items: seq<S.JoinArgs>, ch: ID, w: World, limit: nat, a: S.JoinArgs)
    requires Inv(w, limit) && |items| > 0 && Ready(items, ch, w) && a == items[0].(pick := a.pick) && Enabled(w, limit, Join(a))
    ensures Ready(items[1..], ch, Next(w, limit, Join(a)))
  {
    JoinRows(w, limit, a);
    ReadFacts(w, limit, ch);
    var w' := Next(w, limit, Join(a));
    forall i | 0 <= i < |items| - 1 ensures ReadyItem(items[1..][i], ch, w') {
      assert ReadyItem(items[i + 1], ch, w);
      JoinJobRows(ReadState(w.db, ch), w.db, limit, a, items[i + 1].newCallID);
    }
  }

  /** The state in memory is what a read of the database would return. */
  ghost predicate Mirrors(state: LiveCall?, db: Database, ch: ID, w: World)
    reads db, state, if state == null then {} else state.Repr
  {
    && (state != null ==> state.Valid() && db !in state.Repr)
    && db.healthy && db.data == w.db && OptValue(state) == ReadState(w.db, ch)
  }

  lemma ReadUsers(w: World, limit: nat, ch: ID)
    requires Inv(w, limit)
    ensures var st := ReadState(w.db, ch);
            st.Some? ==> NamedUsers(st.value.sessions) && |st.value.sessions| >= 1
  {
    ReadFacts(w, limit, ch);
  }

  lemma OneJoin(w: World, limit: nat, a: S.JoinArgs, o: S.JoinOutcome)
    requires Inv(w, limit) && ReadyItem(a, a.channelID, w)
    requires var st := ReadState(w.db, a.channelID);
             && (S.Joined(st, w.db, limit, a) ==> S.JoinChoice(st, a)) && o == S.JoinCall(st, w.db, limit, a)
    ensures Enabled(w, limit, Join(a))
    ensures var w' := Next(w, limit, Join(a));
            Inv(w', limit) && o.db == w'.db && o.state == ReadState(w'.db, a.channelID) && w'.log == w.log + o.msgs
  {
    J.JoinCoherent(w, limit, a);
    StepKeeps(w, limit, Join(a));
  }

  method RunJoin(read: LiveCall?, db: Database, limit: nat, a: S.JoinArgs, ghost w: World)
    returns (state: LiveCall?, msgs: seq<Msg>, pick: ID)
    requires Inv(w, limit) && Mirrors(read, db, a.channelID, w) && ReadyItem(a, a.channelID, w)
    modifies db
    ensures Enabled(w, limit, Join(a.(pick := pick)))
    ensures var w' := Next(w, limit, Join(a.(pick := pick)));
            Inv(w', limit) && Mirrors(state, db, a.channelID, w') && w'.log == w.log + msgs
  {
    ReadUsers(w, limit, a.channelID);
    state, msgs, pick := E.AddSessionToCall(read, db, limit, a);
    OneJoin(w, limit, a.(pick := pick), S.JoinOutcome(OptValue(state), db.data, msgs));
  }

  /** Step k is the join of item k, with the host that getHostID settled on. */
  predicate JoinSteps(items: seq<S.JoinArgs>, steps: seq<Step>) {
    |steps| <= |items| && forall k :: 0 <= k < |steps| ==> steps[k].Join? && steps[k].join == items[k].(pick := steps[k].join.pick)
  }

  /** The joins queued for a channel, whatever they are, on the state read before the first: the database, the messages
      and the state handed from one to the next are those of joins that each lock the call and read it. */
  method RunJoins(read: LiveCall?, db: Database, limit: nat, ch: ID, items: seq<S.JoinArgs>, ghost w: World)
    returns (state: LiveCall?, msgs: seq<Msg>, ghost steps: seq<Step>, ghost w': World)
    requires Inv(w, limit) && Mirrors(read, db, ch, w) && Ready(items, ch, w)
    modifies db
    ensures |steps| == |items| && JoinSteps(items, steps)
    ensures Reaches(w, limit, steps, w', msgs) && Mirrors(state, db, ch, w')
  {
    state, msgs, steps, w' := read, [], [], w;
    for i := 0 to |items|
      invariant |steps| == i && JoinSteps(items, steps)
      invariant Reaches(w, limit, steps, w', msgs)
      invariant Inv(w', limit) && Mirrors(state, db, ch, w') && Ready(items[i..], ch, w')
    {
      var more, pick;
      ghost var w1 := w';
      assert items[i..][0] == items[i] && items[i..][1..] == items[i + 1..];
      state, more, pick := RunJoin(state, db, limit, items[i], w1);
      ghost var s := Join(items[i].(pick := pick));
      ReadyAfter(items[i..], ch, w1, limit, s.join);
      ReachesMore(w, limit, steps, w1, msgs, s, more);
      msgs, steps, w' := msgs + more, steps + [s], Next(w1, limit, s);
    }
  }

  // ----- leaves -----

  ghost predicate ReadyLeave(l: S.LeaveArgs, ch: ID, w: World) {
    && l.channelID == ch && l.now > 0 && l.userID != NONE
    && (l.originalConnID in w.db.sessions ==> w.db.sessions[l.originalConnID].userID == l.userID)
  }

  /** The database of the batch against that of the run, and the state in memory against both; c is the batch's call. */
  ghost predicate InStep(st: Option<CallState>, b: Store, w: World, ch: ID, c: ID) {
    match st
    case None => ReadState(w.db, ch).None? && b == w.db
    case Some(m) => L.Sim(m, b, w, ch, c)
  }

  lemma StepUsers(st: Option<CallState>, b: Store, w: World, limit: nat, ch: ID, c: ID)
    requires Inv(w, limit) && InStep(st, b, w, ch, c)
    ensures st.Some? ==> NamedUsers(st.value.sessions)
  {
  }

  lemma LeaveEnabled(st: Option<CallState>, b: Store, w: World, limit: nat, l: S.LeaveArgs, c: ID)
    requires Inv(w, limit) && InStep(st, b, w, l.channelID, c) && ReadyLeave(l, l.channelID, w)
    requires S.Leaves(st, l) ==> S.LeaveChoices(st.value, l)
    ensures Enabled(w, limit, Leave(l))
  {
    if st.Some? {
      L.ReadUnderSim(st.value, b, w, limit, l.channelID, c);
    }
  }

  lemma OneLeave(st: Option<CallState>, b: Store, w: World, limit: nat, l: S.LeaveArgs, c: ID, o: S.LeaveOutcome)
    requires Inv(w, limit) && InStep(st, b, w, l.channelID, c) && ReadyLeave(l, l.channelID, w)
    requires (S.Leaves(st, l) ==> S.LeaveChoices(st.value, l)) && o == S.RemoveUserSession(st, b, l)
    ensures Enabled(w, limit, Leave(l))
    ensures var w' := Next(w, limit, Leave(l));
            Inv(w', limit) && InStep(o.state, o.db, w', l.channelID, c) && w'.log == w.log + o.msgs
  {
    LeaveEnabled(st, b, w, limit, l, c);
    StepKeeps(w, limit, Leave(l));
    if st.Some? { L.LeaveSimStep(st.value, b, w, limit, l, c); }
  }

  ghost predicate ReadyLeaves(items: seq<S.LeaveArgs>, from: nat, ch: ID, w: World) {
    forall k :: from <= k < |items| ==> ReadyLeave(items[k], ch, w)
  }

  lemma ReadyLeavesAfter(items: seq<S.LeaveArgs>, i: nat, ch: ID, w: World, limit: nat, s: Step)
    requires Inv(w, limit) && ReadyLeaves(items, i, ch, w) && s.Leave? && Enabled(w, limit, s)
    ensures ReadyLeaves(items, i + 1, ch, Next(w, limit, s))
  {
    if S.Leaves(ReadState(w.db, s.leave.channelID), s.leave) { LeaveShape(w, limit, s.leave); }
    forall k | i < k < |items| ensures ReadyLeave(items[k], ch, Next(w, limit, s)) {
      assert ReadyLeave(items[k], ch, w);
    }
  }

  /** The object the batch works on, and the run it keeps step with. */
  ghost predicate Tracks(state: LiveCall?, db: Database, w: World, limit: nat, ch: ID, c: ID)
    reads db, state, if state == null then {} else state.Repr
  {
    && Inv(w, limit) && db.healthy && (state != null ==> state.Valid() && db !in state.Repr)
    && InStep(OptValue(state), db.data, w, ch, c)
  }

  /** One leave of the batch is one step of the engine, and one of LeaveBatch. */
  ghost predicate LeaveStep(w: World, limit: nat, l: S.LeaveArgs, s: Step, msgs: seq<Msg>, w': World,
                            st: Option<CallState>, b: Store, st': Option<CallState>, b': Store) {
    && s.Leave? && s.leave == l.(pick := s.leave.pick, keys := s.leave.keys)
    && Enabled(w, limit, s) && w' == Next(w, limit, s) && w'.log == w.log + msgs
    && S.RemoveUserSession(st, b, s.leave) == S.LeaveOutcome(st', b', msgs)
  }

  method RunLeave(state: LiveCall, db: Database, limit: nat, ch: ID, l: S.LeaveArgs, ghost w: World, ghost c: ID)
    returns (msgs: seq<Msg>, ghost step: Step, ghost w': World)
    requires ReadyLeave(l, ch, w) && Tracks(state, db, w, limit, ch, c)
    modifies state, state.sessions, state.recording, state.transcription, state.liveCaptions, db
    ensures state.sessions == old(state.sessions) && state.recording == old(state.recording)
    ensures state.transcription == old(state.transcription) && state.liveCaptions == old(state.liveCaptions)
    ensures Tracks(state, db, w', limit, ch, c)
    ensures LeaveStep(w, limit, l, step, msgs, w', Some(old(state.Value())), old(db.data), Some(state.Value()), db.data)
  {
    ghost var st, b := Some(state.Value()), db.data;
    StepUsers(st, b, w, limit, ch, c);
    var ok, pick, keys;
    ok, msgs, pick, keys := H.RemoveOn(state, db, l);
    step := Leave(l.(pick := pick, keys := keys));
    OneLeave(st, b, w, limit, step.leave, c, S.LeaveOutcome(Some(state.Value()), db.data, msgs));
    w' := Next(w, limit, step);
  }

  /** Step k is the leave of item k, with the host and the order of the participants that were found. */
  predicate LeaveSteps(items: seq<S.LeaveArgs>, steps: seq<Step>) {
    |steps| <= |items| && forall k :: 0 <= k < |steps| ==>
      steps[k].Leave? && steps[k].leave == items[k].(pick := steps[k].leave.pick, keys := steps[k].leave.keys)
  }

  /** What a batch started from, and how far it has got: the steps of the run, the world they lead to, the messages, the
      state in memory and the database. */
  datatype Progress = Progress(steps: seq<Step>, w: World, msgs: seq<Msg>, st: Option<CallState>, b: Store)

  /** The first i leaves are done, the rest can still be done, and the batch keeps step with the run. */
  ghost predicate LeavesDone(from: Progress, limit: nat, items: seq<S.LeaveArgs>, i: nat, ch: ID, c: ID, p: Progress) {
    && |p.steps| == i && LeaveSteps(items, p.steps) && L.LeavesOn(p.steps, ch)
    && Reaches(from.w, limit, p.steps, p.w, p.msgs) && ReadyLeaves(items, i, ch, p.w)
    && L.LeaveBatch(from.st, from.b, p.steps) == S.LeaveOutcome(p.st, p.b, p.msgs)
    && Inv(p.w, limit) && InStep(p.st, p.b, p.w, ch, c)
  }

  lemma OneMoreStep(items: seq<S.LeaveArgs>, ch: ID, steps: seq<Step>, s: Step)
    requires |steps| < |items| && LeaveSteps(items, steps) && L.LeavesOn(steps, ch)
    requires s.Leave? && s.leave == items[|steps|].(pick := s.leave.pick, keys := s.leave.keys) && s.leave.channelID == ch && s.leave.now > 0
    ensures LeaveSteps(items, steps + [s]) && L.LeavesOn(steps + [s], ch)
  {
  }

  lemma OneMoreDone(from: Progress, limit: nat, items: seq<S.LeaveArgs>, i: nat, ch: ID, c: ID, p: Progress, s: Step, more: seq<Msg>,
                    w2: World, st2: Option<CallState>, b2: Store)
    requires LeavesDone(from, limit, items, i, ch, c, p) && i < |items| && Inv(w2, limit) && InStep(st2, b2, w2, ch, c)
    requires LeaveStep(p.w, limit, items[i], s, more, w2, p.st, p.b, st2, b2)
    ensures LeavesDone(from, limit, items, i + 1, ch, c, Progress(p.steps + [s], w2, p.msgs + more, st2, b2))
  {
    assert ReadyLeave(items[i], ch, p.w);
    OneMoreStep(items, ch, p.steps, s);
    ReadyLeavesAfter(items, i, ch, p.w, limit, s);
    ReachesMore(from.w, limit, p.steps, p.w, p.msgs, s, more);
    L.BatchSnoc(from.st, from.b, p.steps, s);
  }

  /** The object and the database hold these values. */
  ghost predicate Holds(state: LiveCall?, db: Database, p: Progress)
    reads db, state, if state == null then {} else state.Repr
  {
    db.healthy && (state != null ==> state.Valid() && db !in state.Repr) && OptValue(state) == p.st && db.data == p.b
  }

  method RunItem(state: LiveCall, db: Database, limit: nat, ch: ID, items: seq<S.LeaveArgs>, i: nat,
                 ghost from: Progress, ghost c: ID, ghost p: Progress)
    returns (more: seq<Msg>, ghost p2: Progress)
    requires i < |items| && Holds(state, db, p) && LeavesDone(from, limit, items, i, ch, c, p)
    modifies state, state.sessions, state.recording, state.transcription, state.liveCaptions, db
    ensures state.sessions == old(state.sessions) && state.recording == old(state.recording)
    ensures state.transcription == old(state.transcription) && state.liveCaptions == old(state.liveCaptions)
    ensures Holds(state, db, p2) && LeavesDone(from, limit, items, i + 1, ch, c, p2) && p2.msgs == p.msgs + more
  {
    ghost var s, w2;
    assert ReadyLeave(items[i], ch, p.w);
    more, s, w2 := RunLeave(state, db, limit, ch, items[i], p.w, c);
    p2 := Progress(p.steps + [s], w2, p.msgs + more, Some(state.Value()), db.data);
    OneMoreDone(from, limit, items, i, ch, c, p, s, more, w2, p2.st, p2.b);
  }

  method RunOnCall(state: LiveCall, db: Database, limit: nat, ch: ID, items: seq<S.LeaveArgs>, ghost from: Progress, ghost c: ID)
    returns (msgs: seq<Msg>, ghost p: Progress)
    requires Holds(state, db, from) && LeavesDone(from, limit, items, 0, ch, c, from) && from.msgs == []
    modifies state, state.sessions, state.recording, state.transcription, state.liveCaptions, db
    ensures Holds(state, db, p) && LeavesDone(from, limit, items, |items|, ch, c, p) && p.msgs == msgs
  {
    msgs, p := [], from;
    for i := 0 to |items|
      invariant state.sessions == old(state.sessions) && state.recording == old(state.recording)
      invariant state.transcription == old(state.transcription) && state.liveCaptions == old(state.liveCaptions)
      invariant Holds(state, db, p) && LeavesDone(from, limit, items, i, ch, c, p) && p.msgs == msgs
    {
      var more;
      more, p := RunItem(state, db, limit, ch, items, i, from, c, p);
      msgs := msgs + more;
    }
  }

  /** Without a call every leave is an error, which is logged and changes nothing. */
  method RunOnNothing(db: Database, limit: nat, ch: ID, items: seq<S.LeaveArgs>, ghost from: Progress)
    returns (msgs: seq<Msg>, ghost p: Progress)
    requires Holds(null, db, from) && LeavesDone(from, limit, items, 0, ch, NONE, from) && from.msgs == []
    modifies db
    ensures Holds(null, db, p) && LeavesDone(from, limit, items, |items|, ch, NONE, p) && p.msgs == msgs
  {
    msgs, p := [], from;
    for i := 0 to |items|
      invariant Holds(null, db, p) && LeavesDone(from, limit, items, i, ch, NONE, p) && p.msgs == msgs
    {
      assert ReadyLeave(items[i], ch, p.w);
      var ok, more, pick, keys := H.RemoveUserSession(null, db, items[i]);
      p := IdleItem(from, limit, items, i, ch, p, items[i].(pick := pick, keys := keys));
    }
  }

  lemma IdleItem(from: Progress, limit: nat, items: seq<S.LeaveArgs>, i: nat, ch: ID, p: Progress, l: S.LeaveArgs) returns (p2: Progress)
    requires i < |items| && LeavesDone(from, limit, items, i, ch, NONE, p) && p.st.None?
    requires l == items[i].(pick := l.pick, keys := l.keys)
    ensures LeavesDone(from, limit, items, i + 1, ch, NONE, p2) && p2.st == p.st && p2.b == p.b && p2.msgs == p.msgs
  {
    assert ReadyLeave(items[i], ch, p.w);
    OneLeave(p.st, p.b, p.w, limit, l, NONE, S.LeaveOutcome(None, p.b, []));
    p2 := Progress(p.steps + [Leave(l)], Next(p.w, limit, Leave(l)), p.msgs + [], p.st, p.b);
    OneMoreDone(from, limit, items, i, ch, NONE, p, Leave(l), [], p2.w, p2.st, p2.b);
  }

  /** The leaves queued for a channel, all on the one object read before the first, repeated ones and leaves after the call
      has ended included: the calls, sessions, recordings, transcriptions and messages are those of leaves that each lock the
      call and read it; and so are the captions, up to the time they ended, exactly if no leave ends the foremost
      captions before a later one ends the next. */
  method RunLeaves(state: LiveCall?, db: Database, limit: nat, ch: ID, items: seq<S.LeaveArgs>, ghost w: World)
    returns (msgs: seq<Msg>, ghost steps: seq<Step>, ghost w': World)
    requires Inv(w, limit) && Mirrors(state, db, ch, w) && ReadyLeaves(items, 0, ch, w)
    modifies if state == null then {} else state.Repr, db
    ensures state != null ==> state.Valid()
    ensures |steps| == |items| && LeaveSteps(items, steps)
    ensures Reaches(w, limit, steps, w', msgs) && L.SameStore(db.data, w'.db, false)
    ensures L.SameStore(db.data, w'.db, true) <==>
            forall c :: IsActiveCall(w.db.calls, ch, c) ==> !B.CaptionsDiverge(w.db, c, steps)
  {
    ghost var c := if state == null then NONE else state.Value().call.id;
    ghost var from, p := Progress([], w, [], OptValue(state), db.data), Progress([], w, [], OptValue(state), db.data);
    StartInStep(w, limit, ch, c);
    if state == null {
      msgs, p := RunOnNothing(db, limit, ch, items, from);
    } else {
      msgs, p := RunOnCall(state, db, limit, ch, items, from, c);
    }
    BatchIs(from, limit, items, ch, c, p);
    steps, w' := p.steps, p.w;
  }

  lemma StartInStep(w: World, limit: nat, ch: ID, c: ID)
    requires Inv(w, limit)
    requires var st := ReadState(w.db, ch); st.Some? ==> c == st.value.call.id
    ensures InStep(ReadState(w.db, ch), w.db, w, ch, c)
  {
    ReadFacts(w, limit, ch);
    if ReadState(w.db, ch).Some? { L.StartSim(w, limit, ch, c); }
  }

  lemma BatchIs(from: Progress, limit: nat, items: seq<S.LeaveArgs>, ch: ID, c: ID, p: Progress)
    requires Inv(from.w, limit) && from.b == from.w.db && from.st == ReadState(from.w.db, ch)
    requires LeavesDone(from, limit, items, |items|, ch, c, p)
    ensures L.SameStore(p.b, p.w.db, false)
    ensures L.SameStore(p.b, p.w.db, true) <==>
            forall d :: IsActiveCall(from.w.db.calls, ch, d) ==> !B.CaptionsDiverge(from.w.db, d, p.steps)
  {
    L.BatchedLeavesAreSequential(from.w, limit, p.steps, ch);
    B.CaptionsAgreeIff(from.w, limit, p.steps, ch);
  }
}
