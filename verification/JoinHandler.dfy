/** addUserSession on the heap (server/session.go). */
module JoinHandler {
  import opened CallModel
  import opened CallStore
  import opened CallJobs
  import S = CallSessions
  import opened CallHeap
  import opened CallHandlers
  import opened HostSuccession

  /** The job a joining bot belongs to gets its connection ID, in place. */
  method JoinJob(c: LiveCall, db: Database, jobID: ID, connID: ID) returns (found: bool, ok: bool)
    requires c.Valid() && db !in c.Repr
    modifies c.recording, c.transcription, c.liveCaptions, db
    ensures var r := BotJoins(old(c.JobsValue()), old(db.data).jobs, jobID, connID);
            && (found <==> r.Some?)
            && (db.healthy && found ==> ok)
            && (!found ==> db.data == old(db.data) && c.JobsValue() == old(c.JobsValue()))
            && (found && ok ==> db.data == old(db.data).(jobs := r.value.rows) && c.JobsValue() == r.value.jobs)
  {
    if c.recording == null && c.transcription == null { return false, false; }
    if c.recording != null && c.recording.id == jobID && c.recording.startAt == 0 {
      c.recording.botConnID := connID;
      ok := db.UpdateCallJob(c.recording.Value());
      if !ok { c.recording.botConnID := NONE; }
      return true, ok;
    }
    if c.transcription != null && c.transcription.id == jobID && c.transcription.startAt == 0 {
      c.transcription.botConnID := connID;
      if c.liveCaptions != null && c.liveCaptions.startAt == 0 {
        c.liveCaptions.botConnID := connID;
        ok := db.UpdateCallJob(c.liveCaptions.Value());
        if !ok {
          c.liveCaptions.botConnID := NONE;
          return true, false;
        }
      }
      ok := db.UpdateCallJob(c.transcription.Value());
      if !ok { c.transcription.botConnID := NONE; }
      return true, ok;
    }
    return false, false;
  }

  method InsertSession(c: LiveCall, s: Session)
    requires c.Valid()
    modifies c`Repr, c.sessions
    ensures c.Valid() && fresh(c.Repr - old(c.Repr))
    ensures c.Value() == old(c.Value()).(sessions := old(c.SessionsValue())[s.id := s])
  {
    var row := new CallSession(s);
    c.sessions.at := c.sessions.at[s.id := row];
    c.Repr := c.Repr + {row};
  }

  method SetHost(c: LiveCall, host: ID)
    requires c.Valid()
    modifies c`call, c`Repr
    ensures c.Valid() && fresh(c.Repr - old(c.Repr))
    ensures c.call.joined == old(c.call.joined)
    ensures var v := old(c.Value()); c.Value() == v.(call := v.call.(props := v.call.props.(hosts := [host])))
  {
    var hosts := new ID[1];
    hosts[0] := host;
    c.call := c.call.(hosts := hosts);
    c.Repr := c.Repr + {hosts};
    assert hosts[..] == [host];
  }

  method MakeParticipants(c: LiveCall)
    requires c.Valid() && c.call.joined == null
    modifies c`call, c`Repr
    ensures c.Valid() && fresh(c.Repr - old(c.Repr)) && c.Value() == old(c.Value())
    ensures c.call.joined != null && fresh(c.call.joined)
  {
    var none := new IDSet({});
    c.call := c.call.(joined := none);
    c.Repr := c.Repr + {none};
  }

  method RecordParticipant(c: LiveCall, userID: ID)
    requires c.Valid() && c.call.joined != null
    modifies c.call.joined
    ensures c.Valid()
    ensures var v := old(c.Value());
            c.Value() == v.(call := v.call.(props := v.call.props.(participants := v.call.props.participants + {userID})))
  {
    ghost var was := c.SessionsValue();
    c.call.joined.ids := c.call.joined.ids + {userID};
    assert c.SessionsValue() == was;
  }

  method AddParticipant(c: LiveCall, userID: ID)
    requires c.Valid()
    modifies c`call, c`Repr, c.call.joined
    ensures c.Valid() && fresh(c.Repr - old(c.Repr))
    ensures var v := old(c.Value());
            c.Value() == if userID == BOT then v
                         else v.(call := v.call.(props := v.call.props.(participants := v.call.props.participants + {userID})))
  {
    if c.call.joined == null { MakeParticipants(c); }
    if userID != BOT { RecordParticipant(c, userID); }
  }

  /** mapKeys: the keys in whatever order the map yields them. */
  method MapKeys(keys: set<ID>) returns (order: seq<ID>)
    ensures Enumerates(order, keys)
  {
    order := [];
    var rest := keys;
    while exists k :: k in rest
      invariant rest <= keys && Enumerates(order, keys - rest)
      decreases |rest|
    {
      var k :| k in rest;
      order, rest := order + [k], rest - {k};
    }
    assert rest == {};
  }

  ghost predicate NamedUsers(sessions: map<ID, Session>) {
    forall s :: s in sessions ==> sessions[s].userID != NONE
  }

  method PickHost(c: LiveCall) returns (host: ID)
    requires c.Valid() && NamedUsers(c.SessionsValue())
    ensures IsNextHost(c.call.Value(), c.SessionsValue(), host)
  {
    var sessions := map s | s in c.sessions.at :: c.sessions.at[s].Value();
    var order := MapKeys(sessions.Keys);
    host := GetHostID(c.call.Value(), sessions, order);
  }

  /** The state after a session was let in by a request whose `pick` is the host getHostID named. */
  ghost predicate Entered(base: CallState, a: S.JoinArgs, after: CallState, msgs: seq<Msg>) {
    var sessions := base.sessions[a.connID := S.NewSession(base.call.id, a)];
    && S.HostChosen(base, a)
    && after == CallState(S.AdmittedCall(base.call, a), sessions, base.jobs)
    && msgs == if a.pick != base.call.HostID() then [S.Publish(a.channelID, HostChanged(a.pick), UsersOf(sessions))] else []
  }

  /** The new session enters the (copied) state: session map, host, participants. */
  method Enter(c: LiveCall, a: S.JoinArgs) returns (pick: ID, msgs: seq<Msg>)
    requires c.Valid() && a.connID !in c.sessions.at && a.userID != NONE
    requires NamedUsers(c.SessionsValue())
    modifies c.Repr
    ensures c.Valid() && fresh(c.Repr - old(c.Repr))
    ensures Entered(old(c.Value()), a.(pick := pick), c.Value(), msgs)
  {
    ghost var base, r0 := c.Value(), c.Repr;
    InsertSession(c, S.NewSession(c.call.id, a));
    ghost var sessions := base.sessions[a.connID := S.NewSession(base.call.id, a)];
    assert c.Value() == CallState(base.call, sessions, base.jobs);
    pick := PickHost(c);
    pick, msgs := Settle(c, a, pick, base);
    assert fresh(c.Repr - r0);
  }

  method Settle(c: LiveCall, a: S.JoinArgs, host: ID, ghost base: CallState) returns (pick: ID, msgs: seq<Msg>)
    requires c.Valid()
    requires var sessions := base.sessions[a.connID := S.NewSession(base.call.id, a)];
             c.Value() == CallState(base.call, sessions, base.jobs) && IsNextHost(base.call, sessions, host)
    modifies c`call, c`Repr, c.call.joined
    ensures c.Valid() && fresh(c.Repr - old(c.Repr)) && pick == host
    ensures Entered(base, a.(pick := pick), c.Value(), msgs)
  {
    pick := host;
    ghost var r1 := c.Repr;
    msgs := TellHost(c, a.channelID, pick);
    ghost var r2 := c.Repr;
    assert fresh(r2 - r1);
    AddParticipant(c, a.userID);
    assert fresh(c.Repr - r1);
  }

  method TellHost(c: LiveCall, channelID: ID, pick: ID) returns (msgs: seq<Msg>)
    requires c.Valid()
    modifies c`call, c`Repr
    ensures c.Valid() && fresh(c.Repr - old(c.Repr)) && c.call.joined == old(c.call.joined)
    ensures var v := old(c.Value());
            var p := v.call.props;
            && c.Value() == v.(call := v.call.(props := p.(hosts := if pick != v.call.HostID() then [pick] else p.hosts)))
            && msgs == if pick != v.call.HostID() then [S.Publish(channelID, HostChanged(pick), UsersOf(v.sessions))] else []
  {
    msgs := [];
    if pick != c.call.Value().HostID() {
      SetHost(c, pick);
      var view := map s | s in c.sessions.at :: c.sessions.at[s].Value();
      msgs := [S.Publish(channelID, HostChanged(pick), UsersOf(view))];
    }
  }

  datatype JoinError = Denied(reason: S.Refusal) | WriteFailed

  ghost function OptValue(c: LiveCall?): Option<CallState>
    requires c != null ==> c.Valid()
    reads c, if c == null then {} else c.Repr
  {
    if c == null then None else Some(c.Value())
  }

  /** A new call for a state that is nil, else a deep copy of the state. */
  method BaseCopy(original: LiveCall?, a: S.JoinArgs) returns (c: LiveCall)
    requires original != null ==> original.Valid()
    ensures c.Valid() && fresh(c.Repr) && c.Value() == S.BaseState(OptValue(original), a)
  {
    var copy := Clone(original);
    if copy != null { return copy; }
    var call := CallStruct(a.newCallID, a.channelID, a.now, 0, a.now, NONE, NONE, a.userID, null, 0, null,
                           if a.rtcd.Host? then a.rtcd.ip else NONE, NONE, 0, a.nodeID, null, NONE, null);
    var sessions := new SessionMap(map[]);
    c := new LiveCall(call, sessions, null, null, null, {sessions});
    assert c.SessionsValue() == map[];
  }

  /** Rows are written call first, session last. */
  method Persist(c: LiveCall, db: Database, connID: ID) returns (ok: bool)
    requires c.Valid() && db !in c.Repr && connID in c.SessionsValue()
    modifies db
    ensures db.healthy && (|c.Value().sessions| == 1 ==> c.Value().call.id !in old(db.data).calls) ==> ok
    ensures ok ==> db.data == Written(old(db.data), c.Value(), connID)
  {
    assert c.SessionsValue().Keys == c.sessions.at.Keys;
    if |c.sessions.at| == 1 {
      ok := db.CreateCall(c.call.Value());
    } else {
      ok := db.UpdateCallRow(c.call.Value());
    }
    if !ok { return; }
    ok := db.CreateCallSession(c.sessions.at[connID].Value());
  }

  /** What the caller of addUserSession may rely on, against the function of the values. */
  ghost predicate Outcome(spec: S.AddResult, err: Option<JoinError>, state: Option<CallState>, db: Store, db': Store,
                          msgs: seq<Msg>, healthy: bool) {
    match err
    case None => state.Some? && spec == S.Added(state.value, db', msgs)
    case Some(Denied(reason)) => spec == S.Refused(reason) && db' == db && msgs == []
    case Some(WriteFailed) =>
      spec.Added? && msgs == [] && (healthy ==> |spec.state.sessions| == 1 && spec.state.call.id in db.calls)
  }

  function Check(base: CallState, limit: nat, connID: ID): Option<S.Refusal> {
    if base.call.endAt > 0 then Some(S.CallEnded)
    else if connID in base.sessions then Some(S.AlreadyConnected)
    else if !S.JoinAllowed(base.sessions, limit) then Some(S.LimitReached)
    else None
  }

  /** The checks before anything is changed. */
  method Refusal(c: LiveCall, limit: nat, a: S.JoinArgs) returns (reason: Option<S.Refusal>)
    requires c.Valid()
    ensures reason == Check(c.Value(), limit, a.connID)
  {
    assert c.SessionsValue().Keys == c.sessions.at.Keys;
    if c.call.endAt > 0 { return Some(S.CallEnded); }
    if a.connID in c.sessions.at { return Some(S.AlreadyConnected); }
    if limit != 0 && |c.sessions.at| >= limit { return Some(S.LimitReached); }
    return None;
  }

  /** A joining bot is registered with its job; nothing happens for anyone else. */
  method JoinBot(c: LiveCall, db: Database, a: S.JoinArgs) returns (err: Option<JoinError>)
    requires c.Valid() && db !in c.Repr
    modifies c.recording, c.transcription, c.liveCaptions, db
    ensures c.Valid()
    ensures var base, db0 := old(c.Value()), old(db.data);
            var jd := S.JoinJobs(base, db0, a);
            match err
            case None => jd.Some? && c.Value() == base.(jobs := jd.value.jobs) && db.data == db0.(jobs := jd.value.rows)
            case Some(Denied(reason)) => jd.None? && reason == S.NoJobToJoin && db.data == db0
            case Some(WriteFailed) => jd.Some? && !db.healthy
  {
    if a.userID == BOT {
      ghost var sessions := c.SessionsValue();
      var found, ok := JoinJob(c, db, a.jobID, a.connID);
      assert c.SessionsValue() == sessions;
      if !found { return Some(Denied(S.NoJobToJoin)); }
      if !ok { return Some(WriteFailed); }
    }
    return None;
  }

  /** Letting a session in and writing the rows is what Admit says. */
  lemma AdmitIs(base: CallState, db: Store, jd: JobsDb, b: S.JoinArgs, after: CallState, msgs: seq<Msg>)
    requires Entered(base.(jobs := jd.jobs), b, after, msgs)
    ensures S.Admit(base, db, jd, b) == S.Added(after, Written(db.(jobs := jd.rows), after, b.connID), msgs)
  {
  }

  ghost function Written(db: Store, v: CallState, connID: ID): Store
    requires connID in v.sessions
  {
    Store(if |v.sessions| == 1 then InsertCall(db.calls, v.call) else UpdateCall(db.calls, v.call),
          db.sessions[v.sessions[connID].id := v.sessions[connID]], db.jobs)
  }

  /** The session enters the copied state and the rows are written. */
  method Admission(c: LiveCall, db: Database, a: S.JoinArgs, ghost base: CallState, ghost db0: Store, ghost jd: JobsDb)
    returns (err: Option<JoinError>, msgs: seq<Msg>, pick: ID)
    requires c.Valid() && db !in c.Repr && a.connID !in c.SessionsValue() && a.userID != NONE && NamedUsers(c.SessionsValue())
    requires c.Value() == base.(jobs := jd.jobs) && db.data == db0.(jobs := jd.rows)
    modifies c.Repr, db
    ensures c.Valid() && fresh(c.Repr - old(c.Repr))
    ensures Outcome(S.Admit(base, db0, jd, a.(pick := pick)), err, Some(c.Value()), db0, db.data, msgs, db.healthy)
    ensures S.HostChosen(base, a.(pick := pick))
  {
    pick, msgs := Enter(c, a);
    ghost var after := c.Value();
    AdmitIs(base, db0, jd, a.(pick := pick), after, msgs);
    var ok := Persist(c, db, a.connID);
    assert c.Value() == after;
    err := None;
    if !ok { err, msgs := Some(WriteFailed), []; }
  }

  ghost function Rest(base: CallState, db: Store, b: S.JoinArgs): S.AddResult {
    var jd := S.JoinJobs(base, db, b);
    if jd.None? then S.Refused(S.NoJobToJoin) else S.Admit(base, db, jd.value, b)
  }

  /** From the copied state on: the job of a bot, the session, the rows. */
  method Complete(c: LiveCall, db: Database, a: S.JoinArgs) returns (err: Option<JoinError>, msgs: seq<Msg>, pick: ID)
    requires c.Valid() && db !in c.Repr && a.connID !in c.SessionsValue() && a.userID != NONE && NamedUsers(c.SessionsValue())
    modifies c.Repr, db
    ensures c.Valid() && fresh(c.Repr - old(c.Repr))
    ensures Outcome(Rest(old(c.Value()), old(db.data), a.(pick := pick)), err, Some(c.Value()), old(db.data), db.data, msgs, db.healthy)
    ensures err.None? ==> S.HostChosen(old(c.Value()), a.(pick := pick))
  {
    ghost var base, db0 := c.Value(), db.data;
    err := JoinBot(c, db, a);
    if err.Some? { return err, [], NONE; }
    err, msgs, pick := Admission(c, db, a, base, db0, S.JoinJobs(base, db0, a).value);
  }

  lemma RestIs(st: Option<CallState>, db: Store, limit: nat, b: S.JoinArgs, base: CallState)
    requires (st.None? ==> b.allowed && !b.rtcd.NoHost?) && base == S.BaseState(st, b)
    ensures var reason := Check(base, limit, b.connID);
            S.AddUserSession(st, db, limit, b) == if reason.Some? then S.Refused(reason.value) else Rest(base, db, b)
  {
  }

  /** Checks and everything else, on a copy of the state `st` or on a new call. */
  method AddToCopy(c: LiveCall, db: Database, limit: nat, a: S.JoinArgs, ghost st: Option<CallState>)
    returns (err: Option<JoinError>, msgs: seq<Msg>, pick: ID)
    requires c.Valid() && db !in c.Repr && NamedUsers(c.SessionsValue()) && a.userID != NONE
    requires (st.None? ==> a.allowed && !a.rtcd.NoHost?) && c.Value() == S.BaseState(st, a)
    modifies c.Repr, db
    ensures c.Valid() && fresh(c.Repr - old(c.Repr))
    ensures Outcome(S.AddUserSession(st, old(db.data), limit, a.(pick := pick)), err, Some(c.Value()),
                    old(db.data), db.data, msgs, db.healthy)
    ensures err.None? ==> S.JoinChoice(st, a.(pick := pick))
  {
    ghost var base, db0 := c.Value(), db.data;
    var reason := Refusal(c, limit, a);
    if reason.Some? {
      err, msgs, pick := Some(Denied(reason.value)), [], NONE;
    } else {
      err, msgs, pick := Complete(c, db, a);
    }
    RestIs(st, db0, limit, a.(pick := pick), base);
  }

  /** addUserSession: on success a new object holds the new state, whose host is one getHostID may name; on every error the
      caller gets the original object back. The original's heap is not written in either case: only the database is in the
      frame. */
  method AddUserSession(original: LiveCall?, db: Database, limit: nat, a: S.JoinArgs)
    returns (state: LiveCall?, err: Option<JoinError>, msgs: seq<Msg>, pick: ID)
    requires original != null ==> original.Valid() && db !in original.Repr && NamedUsers(original.SessionsValue())
    requires a.userID != NONE
    modifies db
    ensures original != null ==> original.Valid() && original.Value() == old(original.Value())
    ensures err.Some? ==> state == original
    ensures err.None? ==> state != null && state.Valid() && fresh(state.Repr)
    ensures err.None? ==> S.JoinChoice(old(OptValue(original)), a.(pick := pick))
    ensures Outcome(S.AddUserSession(old(OptValue(original)), old(db.data), limit, a.(pick := pick)), err,
                    if err.None? then Some(state.Value()) else None, old(db.data), db.data, msgs, db.healthy)
  {
    if original == null && !a.allowed { return original, Some(Denied(S.NotAllowed)), [], NONE; }
    if original == null && a.rtcd.NoHost? { return original, Some(Denied(S.NoRTCDHost)), [], NONE; }
    var c := BaseCopy(original, a);
    err, msgs, pick := AddToCopy(c, db, limit, a, OptValue(original));
    state := if err.None? then c else original;
  }
}
