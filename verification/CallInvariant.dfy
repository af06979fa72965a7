/** The invariant of the call engine: every step of every interleaving keeps it. */
module CallInvariant {
  import opened CallModel
  import opened CallStore
  import opened CallJobs
  import opened JobSafety
  import opened CallSessions
  import opened CallEngine

  // ----- reading the state of an active call -----

  lemma ReadFacts(w: World, limit: nat, channelID: ID)
    requires Inv(w, limit)
    ensures var st := ReadState(w.db, channelID);
            && (st.None? ==> forall c :: !IsActiveCall(w.db.calls, channelID, c))
            && (st.Some? ==>
                  && st.value.call.id in w.db.calls
                  && st.value == StateOf(w.db, st.value.call.id)
                  && IsActiveCall(w.db.calls, channelID, st.value.call.id)
                  && CallOK(st.value.call, st.value.sessions, w.joined[st.value.call.id], limit)
                  && Backed(st.value.jobs, w.db.jobs) && DistinctIDs(st.value.jobs))
  {
    ActiveCallFound(w.db.calls, channelID);
    var st := ReadState(w.db, channelID);
    if st.Some? {
      JobsOfBacked(w.db.jobs, st.value.call.id);
    }
  }

  /** UpdateCall loses nothing when only updatable columns were changed. */
  lemma UpdateIsWrite(calls: map<ID, Call>, call: Call)
    requires call.id in calls
    requires var row := calls[call.id];
             row.id == call.id && row.channelID == call.channelID && row.startAt == call.startAt
             && row.createAt == call.createAt && row.ownerID == call.ownerID
    ensures UpdateCall(calls, call) == calls[call.id := call]
  {
  }

  /** Rewriting or adding one call, with the other calls' sessions left alone. */
  lemma OneCallChanged(w: World, w': World, limit: nat, c: ID, call: Call)
    requires CallsOK(w, limit)
    requires w'.db.calls == w.db.calls[c := call]
    requires w'.joined.Keys == w.joined.Keys + {c}
    requires forall d :: d in w.joined && d != c ==> w'.joined[d] == w.joined[d]
    requires forall d :: d in w.db.calls && d != c ==> SessionsOf(w'.db.sessions, d) == SessionsOf(w.db.sessions, d)
    requires CallOK(call, SessionsOf(w'.db.sessions, c), w'.joined[c], limit)
    requires c in w.db.calls && call.endAt == 0 ==> IsActiveCall(w.db.calls, call.channelID, c)
    requires c !in w.db.calls && call.endAt == 0 ==> forall d :: !IsActiveCall(w.db.calls, call.channelID, d)
    ensures CallsOK(w', limit)
  {
    forall ch ensures UniqueCall(w'.db.calls, ch) {
      OneActiveCall(w.db.calls, c, call, ch);
    }
    forall d | d in w'.db.calls ensures CallOK(w'.db.calls[d], SessionsOf(w'.db.sessions, d), w'.joined[d], limit) {
      if d != c { assert CallOK(w.db.calls[d], SessionsOf(w.db.sessions, d), w.joined[d], limit); }
    }
  }

  lemma OneActiveCall(calls: map<ID, Call>, c: ID, call: Call, ch: ID)
    requires UniqueCall(calls, ch)
    requires c in calls && call.endAt == 0 ==> IsActiveCall(calls, call.channelID, c)
    requires c !in calls && call.endAt == 0 ==> forall d :: !IsActiveCall(calls, call.channelID, d)
    ensures UniqueCall(calls[c := call], ch)
  {
    var calls' := calls[c := call];
    forall d, e | IsActiveCall(calls', ch, d) && IsActiveCall(calls', ch, e) ensures d == e {
      assert d != c ==> IsActiveCall(calls, ch, d);
      assert e != c ==> IsActiveCall(calls, ch, e);
    }
  }

  /** Rewriting a call's updatable columns and nothing else. */
  lemma CallRewritten(w: World, limit: nat, c: ID, call: Call, w': World)
    requires Inv(w, limit) && c in w.db.calls && w.db.calls[c].endAt == 0
    requires w'.db == w.db.(calls := UpdateCall(w.db.calls, call)) && w'.joined == w.joined && w'.conns == w.conns
    requires call.id == c && call == w.db.calls[c].(screenDuration := call.screenDuration, props := call.props)
    requires HostOK(call, SessionsOf(w.db.sessions, c)) && call.props.participants == w.db.calls[c].props.participants
    requires |w.log| <= |w'.log| && w'.log[..|w.log|] == w.log && Plain(w'.log[|w.log|..])
    ensures Inv(w', limit)
  {
    UpdateIsWrite(w.db.calls, call);
    assert CallOK(w.db.calls[c], SessionsOf(w.db.sessions, c), w.joined[c], limit);
    assert CallOK(call, SessionsOf(w.db.sessions, c), w.joined[c], limit);
    OneCallChanged(w, w', limit, c, call);
    assert w'.log == w.log + w'.log[|w.log|..];
    LogKept(w, w', w'.log[|w.log|..]);
    assert TablesOK(w'.db);
  }

  lemma Unchanged(w: World, limit: nat, w': World)
    requires Inv(w, limit) && w'.db == w.db && w'.joined == w.joined && w'.conns == w.conns && w'.log == w.log
    ensures Inv(w', limit)
  {
  }

  // ----- joining -----

  /** Admitting a session keeps the host rules: a returning locked user takes the role back, otherwise a
      present host keeps it. */
  lemma HostAfterJoin(base: CallState, a: JoinArgs)
    requires base.call.endAt == 0 && a.connID !in base.sessions && a.userID != NONE
    requires HostOK(base.call, base.sessions)
    requires forall s :: s in base.sessions ==> base.sessions[s].userID != NONE
    requires IsNextHost(base.call, base.sessions[a.connID := NewSession(base.call.id, a)], a.pick)
    ensures HostOK(AdmittedCall(base.call, a), base.sessions[a.connID := NewSession(base.call.id, a)])
  {
    var ss := base.sessions[a.connID := NewSession(base.call.id, a)];
    assert ss[a.connID].userID == a.userID;
    forall u | InCall(base.sessions, u) ensures InCall(ss, u) {
      var s :| s in base.sessions && base.sessions[s].userID == u;
      assert s in ss && ss[s].userID == u;
    }
    if SomeoneInCall(base.sessions) {
      var s :| s in base.sessions && base.sessions[s].userID != BOT;
      assert s in ss && ss[s].userID != BOT;
    }
    assert AdmittedCall(base.call, a).HostID() == a.pick;
    if SomeoneInCall(ss) {
      assert InCall(ss, a.pick);
    } else if InCall(ss, base.call.HostID()) {
      assert !SomeoneInCall(base.sessions);
    }
  }

  /** What an admitted session is added to: the channel's active call, or a new one that has no row yet. */
  lemma BaseFacts(w: World, limit: nat, a: JoinArgs)
    requires Inv(w, limit) && Enabled(w, limit, Join(a))
    ensures var st := ReadState(w.db, a.channelID);
            var base := BaseState(st, a);
            && base.call.endAt == 0 && base.call.channelID == a.channelID && base.call.startAt > 0 && base.call.id != NONE
            && HostOK(base.call, base.sessions)
            && base.sessions == SessionsOf(w.db.sessions, base.call.id)
            && Backed(base.jobs, w.db.jobs) && DistinctIDs(base.jobs)
            && (st.None? ==> base.call.id !in w.db.calls && base.sessions == map[])
            && (st.Some? ==> base.call.id in w.db.calls && base.call == w.db.calls[base.call.id] && |base.sessions| >= 1
                             && base.call.props.participants == w.joined[base.call.id])
            && (st.None? ==> forall d :: !IsActiveCall(w.db.calls, a.channelID, d))
            && (st.Some? ==> IsActiveCall(w.db.calls, a.channelID, base.call.id))
  {
    ReadFacts(w, limit, a.channelID);
    var st := ReadState(w.db, a.channelID);
    if st.None? {
      assert forall s :: s in w.db.sessions ==> w.db.sessions[s].callID in w.db.calls;
      assert SessionsOf(w.db.sessions, a.newCallID) == map[];
      assert !InCall(NewCall(a).sessions, NONE) && !SomeoneInCall(NewCall(a).sessions);
    }
  }

  lemma JoinedRows(st: Option<CallState>, db: Store, limit: nat, a: JoinArgs)
    requires Joined(st, db, limit, a)
    requires var base := BaseState(st, a);
             if st.Some? then base.call.id in db.calls && base.call == db.calls[base.call.id] && |base.sessions| >= 1
             else base.call.id !in db.calls && base.sessions == map[]
    ensures var o := JoinCall(st, db, limit, a);
            var base := BaseState(st, a);
            var call := o.state.value.call;
            && (|o.state.value.sessions| == 1 <==> st.None?)
            && (st.None? <==> call.id !in db.calls)
            && (st.None? ==> a.userID != BOT)
            && call == AdmittedCall(base.call, a).(postID := call.postID, threadID := call.threadID)
            && o.db.calls == db.calls[call.id := call]
            && o.db.sessions == db.sessions[a.connID := NewSession(call.id, a)]
            && o.state.value.sessions == base.sessions[a.connID := NewSession(call.id, a)]
  {
    var base := BaseState(st, a);
    var ss := base.sessions[a.connID := NewSession(base.call.id, a)];
    assert |ss| == |base.sessions| + 1;
    if base.call.id in db.calls { UpdateIsWrite(db.calls, AdmittedCall(base.call, a)); }
  }

  /** After a join the call has one session exactly when the join created it, so inserting on one session and
      updating otherwise is always right, and the call is announced by the join that inserts it. */
  lemma NewCallIffSingleSession(w: World, limit: nat, a: JoinArgs)
    requires Inv(w, limit) && Enabled(w, limit, Join(a)) && Joined(ReadState(w.db, a.channelID), w.db, limit, a)
    ensures var st := ReadState(w.db, a.channelID);
            var o := JoinCall(st, w.db, limit, a);
            var base := BaseState(st, a);
            var call := o.state.value.call;
            && (|o.state.value.sessions| == 1 <==> st.None?)
            && (st.None? <==> call.id !in w.db.calls)
            && (st.None? ==> a.userID != BOT)
            && call == AdmittedCall(base.call, a).(postID := call.postID, threadID := call.threadID)
            && o.db.calls == w.db.calls[call.id := call]
            && o.db.sessions == w.db.sessions[a.connID := NewSession(call.id, a)]
            && o.state.value.sessions == base.sessions[a.connID := NewSession(call.id, a)]
  {
    BaseFacts(w, limit, a);
    JoinedRows(ReadState(w.db, a.channelID), w.db, limit, a);
  }

  lemma StartCounts(log: seq<Msg>, hm: seq<Msg>, start: seq<Msg>, tail: seq<Msg>, callID: ID)
    requires Plain(hm) && Plain(tail)
    requires start == [] || (|start| == 1 && start[0].ev.CallStart? && start[0].ev.callID == callID)
    ensures forall k :: Starts(log + (hm + start + tail), k) == Starts(log, k) + (if start != [] && k == callID then 1 else 0)
    ensures forall k :: Departures(log + (hm + start + tail), k) == Departures(log, k)
  {
    PlainKeepsCounts(log, hm);
    PlainKeepsCounts(log + hm + start, tail);
    assert log + (hm + start + tail) == log + hm + start + tail;
    forall k
      ensures Starts(log + hm + start, k) == Starts(log + hm, k) + (if start != [] && k == callID then 1 else 0)
      ensures Departures(log + hm + start, k) == Departures(log + hm, k)
    {
      CountsConcat(log + hm, start, k);
      if start != [] { assert start[..0] == []; }
    }
  }

  lemma JoinMsgs(st: Option<CallState>, db: Store, limit: nat, a: JoinArgs, log: seq<Msg>)
    requires Joined(st, db, limit, a)
    ensures var o := JoinCall(st, db, limit, a);
            && (forall c :: Starts(log + o.msgs, c) == Starts(log, c) + (if |o.state.value.sessions| == 1 && c == o.state.value.call.id then 1 else 0))
            && (forall s :: Departures(log + o.msgs, s) == Departures(log, s))
  {
    var o := JoinCall(st, db, limit, a);
    var s := o.state.value;
    StartCounts(log, AddUserSession(st, db, limit, a).msgs, StartMsgs(s, a), WelcomeMsgs(s, a), s.call.id);
  }

  lemma JoinKeeps(w: World, limit: nat, a: JoinArgs)
    requires Inv(w, limit) && Enabled(w, limit, Join(a))
    ensures Inv(Next(w, limit, Join(a)), limit)
  {
    var st := ReadState(w.db, a.channelID);
    var w' := Next(w, limit, Join(a));
    if !Joined(st, w.db, limit, a) {
      assert w'.log == w.log;
      Unchanged(w, limit, w');
    } else {
      JoinedKeepsCalls(w, limit, a);
      JoinedKeepsJobs(w, limit, a);
      JoinedKeepsTables(w, limit, a);
      JoinedKeepsLog(w, limit, a);
    }
  }

  lemma JoinedKeepsTables(w: World, limit: nat, a: JoinArgs)
    requires Inv(w, limit) && Enabled(w, limit, Join(a)) && Joined(ReadState(w.db, a.channelID), w.db, limit, a)
    requires JobsKeyed(Next(w, limit, Join(a)).db.jobs)
    ensures TablesOK(Next(w, limit, Join(a)).db)
  {
    var o := JoinCall(ReadState(w.db, a.channelID), w.db, limit, a);
    BaseFacts(w, limit, a);
    NewCallIffSingleSession(w, limit, a);
    RowsAdded(w.db, o.db, o.state.value.call, a);
  }

  lemma RowsAdded(db: Store, db': Store, call: Call, a: JoinArgs)
    requires TablesOK(db) && JobsKeyed(db'.jobs)
    requires call.id != NONE && call.startAt > 0 && a.connID != NONE && a.userID != NONE
    requires db'.calls == db.calls[call.id := call] && db'.sessions == db.sessions[a.connID := NewSession(call.id, a)]
    ensures TablesOK(db')
  {
  }

  lemma JoinedKeepsLog(w: World, limit: nat, a: JoinArgs)
    requires Inv(w, limit) && Enabled(w, limit, Join(a)) && Joined(ReadState(w.db, a.channelID), w.db, limit, a)
    ensures LogOK(Next(w, limit, Join(a)))
  {
    NewCallIffSingleSession(w, limit, a);
    JoinMsgs(ReadState(w.db, a.channelID), w.db, limit, a, w.log);
  }

  lemma JoinedKeepsJobs(w: World, limit: nat, a: JoinArgs)
    requires Inv(w, limit) && Enabled(w, limit, Join(a)) && Joined(ReadState(w.db, a.channelID), w.db, limit, a)
    ensures var rows := Next(w, limit, Join(a)).db.jobs;
            JobsKeyed(rows) && OneOfEach(rows) && Evolves(w.db.jobs, rows)
  {
    BaseFacts(w, limit, a);
    var base := BaseState(ReadState(w.db, a.channelID), a);
    BotJoinsOK(JobsDb(base.jobs, w.db.jobs), a.jobID, a.connID);
    EvolvesKeeps(w.db.jobs, Next(w, limit, Join(a)).db.jobs);
  }

  lemma JoinedCallOK(w: World, limit: nat, a: JoinArgs)
    requires Inv(w, limit) && Enabled(w, limit, Join(a)) && Joined(ReadState(w.db, a.channelID), w.db, limit, a)
    ensures var s := JoinCall(ReadState(w.db, a.channelID), w.db, limit, a).state.value;
            CallOK(s.call, s.sessions, Next(w, limit, Join(a)).joined[s.call.id], limit)
  {
    BaseFacts(w, limit, a);
    NewCallIffSingleSession(w, limit, a);
    var base := BaseState(ReadState(w.db, a.channelID), a);
    HostAfterJoin(base, a);
    var s := JoinCall(ReadState(w.db, a.channelID), w.db, limit, a).state.value;
    assert HostOK(s.call, s.sessions);
  }

  lemma JoinedKeepsCalls(w: World, limit: nat, a: JoinArgs)
    requires Inv(w, limit) && Enabled(w, limit, Join(a)) && Joined(ReadState(w.db, a.channelID), w.db, limit, a)
    ensures CallsOK(Next(w, limit, Join(a)), limit)
  {
    BaseFacts(w, limit, a);
    NewCallIffSingleSession(w, limit, a);
    JoinedCallOK(w, limit, a);
    var call := JoinCall(ReadState(w.db, a.channelID), w.db, limit, a).state.value.call;
    SessionsOfInsert(w.db.sessions, a.connID, NewSession(call.id, a));
    OneCallChanged(w, Next(w, limit, Join(a)), limit, call.id, call);
  }

  // ----- leaving -----

  lemma HostAfterLeave(call: Call, sessions: map<ID, Session>, left: map<ID, Session>, l: LeaveArgs)
    requires HostOK(call, sessions) && l.originalConnID in sessions && left == sessions - {l.originalConnID}
    requires forall s :: s in sessions ==> sessions[s].userID != NONE
    requires sessions[l.originalConnID].userID == l.userID
    requires |left| > 0 && (call.HostID() == l.userID ==> IsNextHost(call, left, l.pick))
    ensures HostOK(RehostedCall(call, left, l), left)
  {
    assert InCall(sessions, l.userID);
    forall u | InCall(left, u) ensures InCall(sessions, u) {
      var s :| s in left && left[s].userID == u;
      assert s in sessions && sessions[s].userID == u;
    }
    forall u | InCall(sessions, u) && u != l.userID ensures InCall(left, u) {
      var s :| s in sessions && sessions[s].userID == u;
      assert s in left && left[s].userID == u;
    }
    if SomeoneInCall(left) {
      var s :| s in left && left[s].userID != BOT;
      assert s in sessions && sessions[s].userID != BOT;
    }
    if SomeoneInCall(sessions) && call.HostID() != l.userID {
      assert InCall(left, call.HostID());
      var s :| s in left && left[s].userID == call.HostID();
      assert s in left && left[s].userID != BOT;
    }
  }

  lemma DepartureCounts(log: seq<Msg>, a: seq<Msg>, c: seq<Msg>, d: seq<Msg>, sessionID: ID)
    requires Plain(a) && Plain(d)
    requires c == [] || (|c| == 1 && c[0].ev.UserLeft? && c[0].ev.sessionID == sessionID)
    ensures forall k :: Starts(log + (a + c + d), k) == Starts(log, k)
    ensures forall k :: Departures(log + (a + c + d), k) == Departures(log, k) + (if c != [] && k == sessionID then 1 else 0)
  {
    PlainKeepsCounts(log, a);
    PlainKeepsCounts(log + a + c, d);
    assert log + (a + c + d) == log + a + c + d;
    forall k
      ensures Starts(log + a + c, k) == Starts(log + a, k)
      ensures Departures(log + a + c, k) == Departures(log + a, k) + (if c != [] && k == sessionID then 1 else 0)
    {
      CountsConcat(log + a, c, k);
      if c != [] { assert c[..0] == []; }
    }
  }

  lemma LeaveMsgCounts(log: seq<Msg>, st: CallState, us: Session, left: map<ID, Session>, l: LeaveArgs)
    ensures forall c :: Starts(log + LeaveMsgs(st, us, left, l), c) == Starts(log, c)
    ensures forall s :: Departures(log + LeaveMsgs(st, us, left, l), s) ==
                        Departures(log, s) + (if l.userID != BOT && s == l.originalConnID then 1 else 0)
  {
    var users := UsersOf(left);
    DepartureCounts(log, MediaOffMsgs(st, us, l, users), GoodbyeMsgs(l), RehostMsgs(st.call, left, l, users), l.originalConnID);
  }

  /** A leave rewrites the row of the channel's active call and deletes one session. */
  lemma LeaveShape(w: World, limit: nat, l: LeaveArgs)
    requires Inv(w, limit) && Enabled(w, limit, Leave(l)) && Leaves(ReadState(w.db, l.channelID), l)
    ensures var st := ReadState(w.db, l.channelID).value;
            var left := st.sessions - {l.originalConnID};
            var call := CallAfterLeave(st.call, left, l);
            var db' := RemoveUserSession(Some(st), w.db, l).db;
            && db'.calls == w.db.calls[call.id := call]
            && db'.sessions == w.db.sessions - {l.originalConnID}
            && SessionsOf(db'.sessions, call.id) == left
            && (forall d :: d in w.db.calls && d != call.id ==> SessionsOf(db'.sessions, d) == SessionsOf(w.db.sessions, d))
  {
    ReadFacts(w, limit, l.channelID);
    var st := ReadState(w.db, l.channelID).value;
    var left := st.sessions - {l.originalConnID};
    var call := CallAfterLeave(st.call, left, l);
    UpdateIsWrite(w.db.calls, call);
    var db' := RemoveUserSession(Some(st), w.db, l).db;
    SessionsOfDelete(w.db.sessions, l.originalConnID);
  }

  lemma LeaveKeepsCalls(w: World, limit: nat, l: LeaveArgs)
    requires Inv(w, limit) && Enabled(w, limit, Leave(l)) && Leaves(ReadState(w.db, l.channelID), l)
    ensures CallsOK(Next(w, limit, Leave(l)), limit)
  {
    ReadFacts(w, limit, l.channelID);
    LeaveShape(w, limit, l);
    var st := ReadState(w.db, l.channelID).value;
    var left := st.sessions - {l.originalConnID};
    var call := CallAfterLeave(st.call, left, l);
    var w' := Next(w, limit, Leave(l));
    assert |left| == |st.sessions| - 1;
    if |left| > 0 {
      HostAfterLeave(StopSharing(st.call, l.originalConnID, l.now), st.sessions, left, l);
    }
    assert CallOK(call, left, w.joined[call.id], limit);
    OneCallChanged(w, w', limit, call.id, call);
  }

  lemma LeaveKeepsLog(w: World, limit: nat, l: LeaveArgs)
    requires Inv(w, limit) && Enabled(w, limit, Leave(l)) && Leaves(ReadState(w.db, l.channelID), l)
    ensures LogOK(Next(w, limit, Leave(l)))
  {
    ReadFacts(w, limit, l.channelID);
    LeaveShape(w, limit, l);
    var st := ReadState(w.db, l.channelID).value;
    LeaveMsgCounts(w.log, st, st.sessions[l.originalConnID], st.sessions - {l.originalConnID}, l);
  }

  lemma LeaveKeepsTables(w: World, limit: nat, l: LeaveArgs)
    requires Inv(w, limit) && Enabled(w, limit, Leave(l)) && Leaves(ReadState(w.db, l.channelID), l)
    ensures var w' := Next(w, limit, Leave(l));
            TablesOK(w'.db) && OneOfEach(w'.db.jobs) && Evolves(w.db.jobs, w'.db.jobs)
  {
    ReadFacts(w, limit, l.channelID);
    LeaveShape(w, limit, l);
    var st := ReadState(w.db, l.channelID).value;
    BotLeavesOK(JobsDb(st.jobs, w.db.jobs), l.originalConnID, l.connID, l.now);
    EvolvesKeeps(w.db.jobs, Next(w, limit, Leave(l)).db.jobs);
  }

  lemma LeaveKeeps(w: World, limit: nat, l: LeaveArgs)
    requires Inv(w, limit) && Enabled(w, limit, Leave(l))
    ensures Inv(Next(w, limit, Leave(l)), limit)
    ensures Evolves(w.db.jobs, Next(w, limit, Leave(l)).db.jobs)
  {
    var w' := Next(w, limit, Leave(l));
    if !Leaves(ReadState(w.db, l.channelID), l) {
      assert w'.log == w.log;
      Unchanged(w, limit, w');
    } else {
      LeaveKeepsCalls(w, limit, l);
      LeaveKeepsTables(w, limit, l);
      LeaveKeepsLog(w, limit, l);
    }
  }

  // ----- host controls, media, jobs, cleanup -----

  lemma MakeHostKeeps(w: World, limit: nat, s: Step)
    requires Inv(w, limit) && s.MakeHost?
    ensures Inv(Next(w, limit, s), limit)
  {
    ReadFacts(w, limit, s.channelID);
    var o := ReadState(w.db, s.channelID);
    var w' := Next(w, limit, s);
    if w'.db == w.db && Published(w, limit, s) == [] {
      assert w'.log == w.log;
      Unchanged(w, limit, w');
    } else {
      var st := o.value;
      var call := if st.call.HostID() == s.newHostID then st.call.(props := st.call.props.(hostLockedUserID := s.newHostID))
                  else st.call.(props := st.call.props.(hosts := [s.newHostID], hostLockedUserID := s.newHostID));
      assert w'.db == w.db.(calls := UpdateCall(w.db.calls, call));
      if st.call.HostID() != s.newHostID {
        var x :| x in st.sessions && st.sessions[x].userID == s.newHostID;
        assert SomeoneInCall(st.sessions);
      }
      CallRewritten(w, limit, st.call.id, call, w');
    }
  }

  lemma AskEndKeeps(w: World, limit: nat, s: Step)
    requires Inv(w, limit) && s.AskEnd?
    ensures Inv(Next(w, limit, s), limit)
  {
    LogKept(w, Next(w, limit, s), Published(w, limit, s));
  }

  lemma EmitKeeps(w: World, limit: nat, s: Step)
    requires Inv(w, limit) && (s.Emit? || s.Resend?)
    ensures Inv(Next(w, limit, s), limit)
  {
    LogKept(w, Next(w, limit, s), Published(w, limit, s));
  }

  lemma DismissKeeps(w: World, limit: nat, s: Step)
    requires Inv(w, limit) && s.Dismiss?
    ensures Inv(Next(w, limit, s), limit)
  {
    ReadFacts(w, limit, s.channelID);
    var w' := Next(w, limit, s);
    var st := ReadState(w.db, s.channelID);
    assert w'.log == w.log;
    if st.None? {
      Unchanged(w, limit, w');
    } else {
      var p := st.value.call.props;
      var call := st.value.call.(props := p.(dismissed := p.dismissed[s.userID := true]));
      CallRewritten(w, limit, call.id, call, w');
    }
  }

  lemma ShareKeeps(w: World, limit: nat, s: Step)
    requires Inv(w, limit) && s.Share? && Enabled(w, limit, s)
    ensures Inv(Next(w, limit, s), limit)
  {
    ReadFacts(w, limit, s.channelID);
    var w' := Next(w, limit, s);
    if w'.db == w.db && Published(w, limit, s) == [] {
      assert w'.log == w.log;
      Unchanged(w, limit, w');
    } else {
      var st := ReadState(w.db, s.channelID).value;
      var p := st.call.props;
      var call := if s.on then st.call.(props := p.(screenSharingSessionID := s.sessionID, screenStartAt := s.now / 1000))
                  else st.call.(
                    screenDuration := if p.screenStartAt > 0 then SecondsSince(p.screenStartAt, s.now) else st.call.screenDuration,
                    props := p.(screenSharingSessionID := NONE, screenStartAt := 0));
      assert w'.db == w.db.(calls := UpdateCall(w.db.calls, call));
      CallRewritten(w, limit, st.call.id, call, w');
    }
  }

  /** The host rules depend on the users of the sessions only. */
  lemma HostOKSameUsers(call: Call, ss: map<ID, Session>, ss': map<ID, Session>)
    requires HostOK(call, ss) && ss.Keys == ss'.Keys && forall s :: s in ss ==> ss'[s].userID == ss[s].userID
    ensures HostOK(call, ss')
  {
    assert forall s :: s in ss <==> s in ss.Keys;
    assert forall s :: s in ss' <==> s in ss'.Keys;
    forall u ensures InCall(ss, u) <==> InCall(ss', u) {
      if InCall(ss, u) { var s :| s in ss && ss[s].userID == u; assert s in ss' && ss'[s].userID == u; }
      if InCall(ss', u) { var s :| s in ss' && ss'[s].userID == u; assert s in ss && ss[s].userID == u; }
    }
    if SomeoneInCall(ss) { var s :| s in ss && ss[s].userID != BOT; assert s in ss' && ss'[s].userID != BOT; }
    if SomeoneInCall(ss') { var s :| s in ss' && ss'[s].userID != BOT; assert s in ss && ss[s].userID != BOT; }
  }

  lemma SameSize(ss: map<ID, Session>, ss': map<ID, Session>)
    requires ss.Keys == ss'.Keys
    ensures |ss| == |ss'|
  {
    assert |ss| == |ss.Keys| && |ss'| == |ss'.Keys|;
  }

  /** A media update rewrites one session row, keeping its ID, its call and its user. */
  lemma SessionRewritten(w: World, limit: nat, w': World, c: ID, x: Session)
    requires Inv(w, limit) && x.id in w.db.sessions && x.callID == c && c in w.db.calls
    requires w.db.sessions[x.id].callID == c && w.db.sessions[x.id].userID == x.userID
    requires w'.db == w.db.(sessions := w.db.sessions[x.id := x]) && w'.joined == w.joined
    ensures TablesOK(w'.db) && CallsOK(w', limit)
  {
    var ss, ss' := SessionsOf(w.db.sessions, c), SessionsOf(w'.db.sessions, c);
    SessionsOfUpdate(w.db.sessions, x.id, x);
    assert ss'.Keys == ss.Keys;
    HostOKSameUsersIf(w.db.calls[c], ss, ss');
    SameSize(ss, ss');
    assert w.db.calls[c := w.db.calls[c]] == w.db.calls;
    assert CallOK(w.db.calls[c], ss, w.joined[c], limit);
    OneCallChanged(w, w', limit, c, w.db.calls[c]);
  }

  lemma HostOKSameUsersIf(call: Call, ss: map<ID, Session>, ss': map<ID, Session>)
    requires ss.Keys == ss'.Keys && forall s :: s in ss ==> ss'[s].userID == ss[s].userID
    ensures HostOK(call, ss) ==> HostOK(call, ss')
  {
    if HostOK(call, ss) { HostOKSameUsers(call, ss, ss'); }
  }

  lemma LogKept(w: World, w': World, msgs: seq<Msg>)
    requires LogOK(w) && Plain(msgs) && w'.log == w.log + msgs
    requires w'.db.calls.Keys == w.db.calls.Keys && w'.db.sessions.Keys == w.db.sessions.Keys && w'.conns == w.conns
    ensures LogOK(w')
  {
    PlainKeepsCounts(w.log, msgs);
    assert forall c :: c in w'.db.calls <==> c in w'.db.calls.Keys;
    assert forall c :: c in w.db.calls <==> c in w.db.calls.Keys;
    assert forall c :: c in w'.db.sessions <==> c in w'.db.sessions.Keys;
    assert forall c :: c in w.db.sessions <==> c in w.db.sessions.Keys;
  }

  lemma MediaShape(st: CallState, db: Store, channelID: ID, userID: ID, sessionID: ID, m: Media, now: nat)
    requires sessionID in st.sessions && sessionID in db.sessions && st.sessions[sessionID] == db.sessions[sessionID]
    requires db.sessions[sessionID].id == sessionID
    ensures var o := HandleMedia(Some(st), db, channelID, userID, sessionID, m, now);
            && o.db == db.(sessions := db.sessions[sessionID := WithMedia(st.sessions[sessionID], m, now)])
            && Plain(o.msgs)
  {
  }

  lemma MediaSent(w: World, limit: nat, s: Step)
    requires Inv(w, limit) && s.SendMedia? && Enabled(w, limit, s)
    ensures var st := ReadState(w.db, s.channelID);
            if st.Some? && s.sessionID in st.value.sessions then
              Next(w, limit, s).db ==
                w.db.(sessions := w.db.sessions[s.sessionID := WithMedia(st.value.sessions[s.sessionID], s.media, s.now)])
              && Plain(Published(w, limit, s))
            else Next(w, limit, s).db == w.db && Next(w, limit, s).log == w.log
  {
    ReadFacts(w, limit, s.channelID);
    var st := ReadState(w.db, s.channelID);
    if st.Some? && s.sessionID in st.value.sessions {
      MediaShape(st.value, w.db, s.channelID, s.userID, s.sessionID, s.media, s.now);
    } else {
      assert Published(w, limit, s) == [];
    }
  }

  lemma MediaKeeps(w: World, limit: nat, s: Step)
    requires Inv(w, limit) && s.SendMedia? && Enabled(w, limit, s)
    ensures Inv(Next(w, limit, s), limit)
  {
    ReadFacts(w, limit, s.channelID);
    MediaSent(w, limit, s);
    var st := ReadState(w.db, s.channelID);
    var w' := Next(w, limit, s);
    if st.Some? && s.sessionID in st.value.sessions {
      SessionRewritten(w, limit, w', st.value.call.id, WithMedia(st.value.sessions[s.sessionID], s.media, s.now));
      LogKept(w, w', Published(w, limit, s));
    } else {
      Unchanged(w, limit, w');
    }
  }

  lemma RunJobKeeps(w: World, limit: nat, s: Step)
    requires Inv(w, limit) && s.RunJob? && Enabled(w, limit, s)
    ensures Inv(Next(w, limit, s), limit)
    ensures Evolves(w.db.jobs, Next(w, limit, s).db.jobs)
  {
    var w' := Next(w, limit, s);
    assert w'.log == w.log;
    ReadFacts(w, limit, s.channelID);
    var o := ReadState(w.db, s.channelID);
    if o.Some? {
      JobStepSafe(JobTable(w.db.jobs, w.recGaps, w.trGaps), o.value.call, s.job);
    }
  }

  lemma EndAllOK(d: JobsDb, now: nat)
    requires Backed(d.jobs, d.rows) && DistinctIDs(d.jobs) && now > 0
    ensures TableOK(d.rows, EndAll(d.jobs, d.rows, now))
  {
  }

  lemma CleanKeepsCalls(w: World, limit: nat, s: Step)
    requires Inv(w, limit) && s.Clean? && Enabled(w, limit, s) && s.callID in w.db.calls
    ensures CallsOK(Next(w, limit, s), limit)
    ensures Next(w, limit, s).db.calls.Keys == w.db.calls.Keys
    ensures forall c :: c in w.db.calls ==> Next(w, limit, s).db.calls[c].(endAt := 0, participants := [], props := w.db.calls[c].props)
                                            == w.db.calls[c].(endAt := 0, participants := [])
  {
    var c := s.callID;
    var w' := Next(w, limit, s);
    var call := if w.db.calls[c].endAt == 0 then SetCallEnded(w.db.calls[c], s.now, s.keys) else w.db.calls[c];
    UpdateIsWrite(w.db.calls, call);
    assert CallOK(w.db.calls[c], SessionsOf(w.db.sessions, c), w.joined[c], limit);
    assert SessionsOf(w'.db.sessions, c) == map[];
    forall d | d in w.db.calls && d != c ensures SessionsOf(w'.db.sessions, d) == SessionsOf(w.db.sessions, d) {}
    OneCallChanged(w, w', limit, c, call);
  }

  lemma CleanKeeps(w: World, limit: nat, s: Step)
    requires Inv(w, limit) && s.Clean? && Enabled(w, limit, s)
    ensures Inv(Next(w, limit, s), limit)
    ensures Evolves(w.db.jobs, Next(w, limit, s).db.jobs)
  {
    var w' := Next(w, limit, s);
    assert w'.log == w.log;
    var c := s.callID;
    if c !in w.db.calls {
      Unchanged(w, limit, w');
    } else {
      CleanKeepsCalls(w, limit, s);
      JobsOfBacked(w.db.jobs, c);
      EndAllOK(JobsDb(JobsOf(w.db.jobs, c), w.db.jobs), s.now);
      EvolvesKeeps(w.db.jobs, w'.db.jobs);
    }
  }

  // ----- every step, every run -----

  lemma StepKeeps(w: World, limit: nat, s: Step)
    requires Inv(w, limit) && Enabled(w, limit, s)
    ensures Inv(Next(w, limit, s), limit)
    ensures Evolves(w.db.jobs, Next(w, limit, s).db.jobs)
  {
    match s
    case Join(a) =>
      JoinKeeps(w, limit, a);
      if Joined(ReadState(w.db, a.channelID), w.db, limit, a) { JoinedKeepsJobs(w, limit, a); }
    case Leave(l) => LeaveKeeps(w, limit, l);
    case MakeHost(_, _, _, _) => MakeHostKeeps(w, limit, s);
    case AskEnd(_, _, _) => AskEndKeeps(w, limit, s);
    case SendMedia(_, _, _, _, _) => MediaKeeps(w, limit, s);
    case Share(_, _, _, _, _) => ShareKeeps(w, limit, s);
    case Emit(_, _, _, _, _) => EmitKeeps(w, limit, s);
    case Resend(_, _) => EmitKeeps(w, limit, s);
    case Dismiss(_, _) => DismissKeeps(w, limit, s);
    case RunJob(_, _) => RunJobKeeps(w, limit, s);
    case Clean(_, _, _) => CleanKeeps(w, limit, s);
  }

  lemma EmptyInv(limit: nat)
    ensures Inv(EMPTY, limit)
  {
  }

  lemma {:induction false} RunKeeps(w: World, limit: nat, steps: seq<Step>)
    requires Inv(w, limit) && ValidRun(w, limit, steps)
    ensures Inv(Run(w, limit, steps), limit)
    ensures Evolves(w.db.jobs, Run(w, limit, steps).db.jobs)
    decreases |steps|
  {
    if steps != [] {
      var w1 := Next(w, limit, steps[0]);
      StepKeeps(w, limit, steps[0]);
      RunKeeps(w1, limit, steps[1..]);
      EvolvesTrans(w.db.jobs, w1.db.jobs, Run(w1, limit, steps[1..]).db.jobs);
    }
  }
}
