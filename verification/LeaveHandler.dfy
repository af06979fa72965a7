/** removeUserSession on the heap (server/session.go): unlike a join it works on the shared state itself. */
module LeaveHandler {
  import opened CallModel
  import opened CallStore
  import opened CallJobs
  import S = CallSessions
  import opened CallHeap
  import opened CallHandlers
  import opened JoinHandler

  method DeleteSession(c: LiveCall, s: ID)
    requires c.Valid()
    modifies c.sessions
    ensures c.Valid()
    ensures var v := old(c.Value()); c.Value() == v.(sessions := v.sessions - {s})
  {
    c.sessions.at := c.sessions.at - {s};
  }

  /** The recording's bot leaves: the recording ends here, and takes a running transcription along. */
  method RecordingBot(c: LiveCall, db: Database, connID: ID, now: nat)
    requires c.Valid() && db !in c.Repr && db.healthy && now > 0
    modifies c.recording, c.transcription, c.liveCaptions, db
    ensures var r := RecordingBotLeaves(JobsDb(old(c.JobsValue()), old(db.data).jobs), connID, now);
            c.JobsValue() == r.jobs && db.data == old(db.data).(jobs := r.rows)
  {
    if c.recording == null || c.recording.endAt != 0 || connID != c.recording.botConnID { return; }
    c.recording.endAt := now;
    var _ := db.UpdateCallJob(c.recording.Value());
    if c.transcription != null && c.transcription.endAt == 0 {
      var _ := StopTranscribingJob(c, db, {}, now);
    }
  }

  method TranscribingBot(c: LiveCall, db: Database, connID: ID, now: nat)
    requires c.Valid() && db !in c.Repr && db.healthy && now > 0
    modifies c.recording, c.transcription, c.liveCaptions, db
    ensures var r := TranscribingBotLeaves(JobsDb(old(c.JobsValue()), old(db.data).jobs), connID, now);
            c.JobsValue() == r.jobs && db.data == old(db.data).(jobs := r.rows)
  {
    if c.transcription == null || c.transcription.endAt != 0 || connID != c.transcription.botConnID { return; }
    c.transcription.endAt := now;
    var _ := db.UpdateCallJob(c.transcription.Value());
    if c.recording != null && c.recording.endAt == 0 {
      var _ := StopRecordingJob(c, db, {}, now);
    }
  }

  method CaptionsBot(c: LiveCall, db: Database, connID: ID, now: nat)
    requires c.Valid() && db !in c.Repr && db.healthy && now > 0
    modifies c.liveCaptions, db
    ensures var r := CaptionsBotLeaves(JobsDb(old(c.JobsValue()), old(db.data).jobs), connID, now);
            c.JobsValue() == r.jobs && db.data == old(db.data).(jobs := r.rows)
  {
    if c.liveCaptions == null || c.liveCaptions.endAt != 0 || connID != c.liveCaptions.botConnID { return; }
    c.liveCaptions.endAt := now;
    var _ := db.UpdateCallJob(c.liveCaptions.Value());
  }

  /** The job part of removeUserSession. */
  method LeaveJobs(c: LiveCall, db: Database, originalConnID: ID, connID: ID, now: nat)
    requires c.Valid() && db !in c.Repr && db.healthy && now > 0
    modifies c.recording, c.transcription, c.liveCaptions, db
    ensures c.Valid()
    ensures var v := old(c.Value());
            var r := BotLeaves(v.jobs, old(db.data).jobs, originalConnID, connID, now);
            c.Value() == v.(jobs := r.jobs) && db.data == old(db.data).(jobs := r.rows)
  {
    ghost var sessions := c.SessionsValue();
    RecordingBot(c, db, originalConnID, now);
    TranscribingBot(c, db, originalConnID, now);
    CaptionsBot(c, db, connID, now);
    assert c.SessionsValue() == sessions;
  }

  /** Sharing stops if the session was sharing. */
  method StopSharing(c: LiveCall, sessionID: ID, now: nat)
    requires c.Valid()
    modifies c`call
    ensures c.Valid() && c.call.Parts() == old(c.call.Parts())
    ensures var v := old(c.Value()); c.Value() == v.(call := S.StopSharing(v.call, sessionID, now))
  {
    if c.call.screenSharingSessionID == sessionID {
      c.call := c.call.(screenSharingSessionID := NONE);
      if c.call.screenStartAt > 0 {
        c.call := c.call.(screenDuration := c.call.screenDuration + S.SecondsSince(c.call.screenStartAt, now));
      }
      c.call := c.call.(screenStartAt := 0);
    }
  }

  /** The host leaves while others stay: getHostID names the next one, or nobody. */
  method Rehost(c: LiveCall, a: S.LeaveArgs) returns (pick: ID, msgs: seq<Msg>)
    requires c.Valid() && NamedUsers(c.SessionsValue())
    modifies c`call, c`Repr
    ensures c.Valid() && fresh(c.Repr - old(c.Repr))
    ensures Rehosted(old(c.Value()), a.(pick := pick), c.Value(), msgs)
  {
    ghost var was := c.Value();
    pick, msgs := a.userID, [];
    assert c.SessionsValue().Keys == c.sessions.at.Keys;
    if c.call.Value().HostID() == a.userID && |c.sessions.at| > 0 {
      pick := PickHost(c);
      if pick != a.userID { msgs := TakeOver(c, a, pick, was); }
    }
  }

  ghost predicate Rehosted(v: CallState, b: S.LeaveArgs, v': CallState, msgs: seq<Msg>) {
    && (v.call.HostID() == b.userID && |v.sessions| > 0 ==> IsNextHost(v.call, v.sessions, b.pick))
    && v' == v.(call := S.RehostedCall(v.call, v.sessions, b))
    && msgs == S.RehostMsgs(v.call, v.sessions, b, UsersOf(v.sessions))
  }

  method TakeOver(c: LiveCall, a: S.LeaveArgs, pick: ID, ghost v: CallState) returns (msgs: seq<Msg>)
    requires c.Valid() && c.Value() == v && S.HostLeaves(v.call, v.sessions, a.(pick := pick)) && IsNextHost(v.call, v.sessions, pick)
    modifies c`call, c`Repr
    ensures c.Valid() && fresh(c.Repr - old(c.Repr))
    ensures Rehosted(v, a.(pick := pick), c.Value(), msgs)
  {
    if pick == NONE {
      c.call := c.call.(hosts := null);
    } else {
      SetHost(c, pick);
    }
    assert c.Value() == v.(call := S.RehostedCall(v.call, v.sessions, a.(pick := pick)));
    var view := map s | s in c.sessions.at :: c.sessions.at[s].Value();
    msgs := [S.Publish(a.channelID, HostChanged(pick), UsersOf(view))];
  }

  /** setCallEnded, with the last sharing time added first. */
  method End(c: LiveCall, a: S.LeaveArgs) returns (keys: seq<ID>)
    requires c.Valid() && |c.SessionsValue()| == 0
    modifies c`call, c`Repr
    ensures c.Valid() && fresh(c.Repr - old(c.Repr))
    ensures Enumerates(keys, old(c.call.Value()).props.participants)
    ensures var v := old(c.Value()); c.Value() == v.(call := S.EndedCall(v.call, v.sessions, a.(keys := keys)))
  {
    keys := MapKeys(c.call.Value().props.participants);
    if c.call.screenStartAt > 0 {
      c.call := c.call.(screenDuration := c.call.screenDuration + S.SecondsSince(c.call.screenStartAt, a.now));
    }
    SetEnded(c, a.now, keys);
  }

  method SetEnded(c: LiveCall, now: nat, keys: seq<ID>)
    requires c.Valid()
    modifies c`call, c`Repr
    ensures c.Valid() && fresh(c.Repr - old(c.Repr))
    ensures var v := old(c.Value()); c.Value() == v.(call := S.SetCallEnded(v.call, now, keys))
  {
    var listed := new ID[|keys|](i requires 0 <= i < |keys| => keys[i]);
    c.call := c.call.(endAt := now, participants := listed, rtcdHost := NONE, dismissed := null, nodeID := NONE, hosts := null,
                      joined := null);
    c.Repr := c.Repr + {listed};
    assert listed[..] == keys;
  }

  /** The session row and entry go, and its screen and camera with them. */
  method Detach(c: LiveCall, db: Database, a: S.LeaveArgs) returns (msgs: seq<Msg>)
    requires c.Valid() && db !in c.Repr && db.healthy && a.originalConnID in c.SessionsValue()
    modifies c`call, c.sessions, db
    ensures c.Valid() && db.data == old(db.data).(sessions := old(db.data).sessions - {a.originalConnID})
    ensures Detached(old(c.Value()), a, c.Value(), msgs)
  {
    var _ := db.DeleteCallSession(a.originalConnID);
    msgs := Unlink(c, a, c.Value());
  }

  method Unlink(c: LiveCall, a: S.LeaveArgs, ghost v: CallState) returns (msgs: seq<Msg>)
    requires c.Valid() && a.originalConnID in c.SessionsValue() && v == c.Value()
    modifies c`call, c.sessions
    ensures c.Valid() && Detached(v, a, c.Value(), msgs)
  {
    var us := c.sessions.at[a.originalConnID].Value();
    var sharing := c.call.screenSharingSessionID == a.originalConnID;
    DeleteSession(c, a.originalConnID);
    StopSharing(c, a.originalConnID, a.now);
    msgs := TellMediaOff(c, sharing, us.video, a);
    DetachedIs(v, c.Value(), a, msgs);
  }

  lemma DetachedIs(v: CallState, v': CallState, a: S.LeaveArgs, msgs: seq<Msg>)
    requires a.originalConnID in v.sessions
    requires var left := v.sessions - {a.originalConnID}; v' == CallState(S.StopSharing(v.call, a.originalConnID, a.now), left, v.jobs)
    requires var users := UsersOf(v'.sessions);
             msgs == (if v.call.props.screenSharingSessionID == a.originalConnID then [S.Publish(a.channelID, ScreenOff(None), users)] else [])
                     + (if v.sessions[a.originalConnID].video then [S.Publish(a.channelID, VideoOff(a.userID, a.originalConnID), users)] else [])
    ensures Detached(v, a, v', msgs)
  {
  }

  method TellMediaOff(c: LiveCall, sharing: bool, video: bool, a: S.LeaveArgs) returns (msgs: seq<Msg>)
    requires c.Valid()
    ensures var users := UsersOf(c.SessionsValue());
            msgs == (if sharing then [S.Publish(a.channelID, ScreenOff(None), users)] else [])
                    + (if video then [S.Publish(a.channelID, VideoOff(a.userID, a.originalConnID), users)] else [])
  {
    var view := map s | s in c.sessions.at :: c.sessions.at[s].Value();
    msgs := [];
    if sharing { msgs := msgs + [S.Publish(a.channelID, ScreenOff(None), UsersOf(view))]; }
    if video { msgs := msgs + [S.Publish(a.channelID, VideoOff(a.userID, a.originalConnID), UsersOf(view))]; }
  }

  ghost predicate Detached(v: CallState, a: S.LeaveArgs, v': CallState, msgs: seq<Msg>)
    requires a.originalConnID in v.sessions
  {
    var left := v.sessions - {a.originalConnID};
    && v' == v.(call := S.StopSharing(v.call, a.originalConnID, a.now), sessions := left)
    && msgs == S.MediaOffMsgs(v, v.sessions[a.originalConnID], a, UsersOf(left))
  }

  /** The rest: the next host, the end of the call, the call's row. */
  method Conclude(c: LiveCall, db: Database, a: S.LeaveArgs) returns (msgs: seq<Msg>, pick: ID, keys: seq<ID>)
    requires c.Valid() && db !in c.Repr && db.healthy && NamedUsers(c.SessionsValue())
    modifies c`call, c`Repr, db
    ensures c.Valid() && fresh(c.Repr - old(c.Repr))
    ensures Concluded(old(c.Value()), a.(pick := pick, keys := keys), c.Value(), msgs)
    ensures db.data == old(db.data).(calls := UpdateCall(old(db.data).calls, c.Value().call))
  {
    ghost var v := c.Value();
    pick, msgs := Rehost(c, a);
    ghost var v1, r1 := c.Value(), c.Repr;
    keys := [];
    assert c.SessionsValue().Keys == c.sessions.at.Keys;
    if |c.sessions.at| == 0 {
      keys := End(c, a);
      assert fresh(c.Repr - r1);
    }
    assert c.Value() == v1.(call := S.EndedCall(v1.call, v1.sessions, a.(keys := keys)));
    ghost var v2 := c.Value();
    var _ := db.UpdateCallRow(c.call.Value());
    assert c.Value() == v2;
    ConcludedIs(v, v1, v2, a, pick, keys, msgs);
  }

  ghost predicate Concluded(v: CallState, b: S.LeaveArgs, v': CallState, msgs: seq<Msg>) {
    && (v.call.HostID() == b.userID && |v.sessions| > 0 ==> IsNextHost(v.call, v.sessions, b.pick))
    && (|v.sessions| == 0 ==> Enumerates(b.keys, v.call.props.participants))
    && v' == v.(call := S.EndedCall(S.RehostedCall(v.call, v.sessions, b), v.sessions, b))
    && msgs == S.RehostMsgs(v.call, v.sessions, b, UsersOf(v.sessions))
  }

  lemma ConcludedIs(v: CallState, v1: CallState, v2: CallState, a: S.LeaveArgs, pick: ID, keys: seq<ID>, msgs: seq<Msg>)
    requires Rehosted(v, a.(pick := pick), v1, msgs)
    requires |v1.sessions| == 0 ==> Enumerates(keys, v1.call.props.participants)
    requires v2 == v1.(call := S.EndedCall(v1.call, v1.sessions, a.(keys := keys)))
    ensures Concluded(v, a.(pick := pick, keys := keys), v2, msgs)
  {
  }

  /** What is gone before the host and the end of the call are looked at. */
  ghost predicate Parted(v: CallState, db: Store, a: S.LeaveArgs, v': CallState, db': Store, msgs: seq<Msg>)
    requires a.originalConnID in v.sessions && a.now > 0
  {
    var r := BotLeaves(v.jobs, db.jobs, a.originalConnID, a.connID, a.now);
    Detached(v, a, v'.(jobs := v.jobs), msgs) && v'.jobs == r.jobs && db' == Store(db.calls, db.sessions - {a.originalConnID}, r.rows)
  }

  method Part(c: LiveCall, db: Database, a: S.LeaveArgs) returns (msgs: seq<Msg>)
    requires c.Valid() && db !in c.Repr && db.healthy && a.now > 0 && a.originalConnID in c.SessionsValue()
    requires NamedUsers(c.SessionsValue())
    modifies c`call, c.sessions, c.recording, c.transcription, c.liveCaptions, db
    ensures c.Valid() && NamedUsers(c.SessionsValue())
    ensures Parted(old(c.Value()), old(db.data), a, c.Value(), db.data, msgs)
  {
    msgs := Detach(c, db, a);
    LeaveJobs(c, db, a.originalConnID, a.connID, a.now);
  }

  /** The two parts are what the function of the values says. */
  lemma RemovedIs(v: CallState, v2: CallState, v3: CallState, db: Store, db2: Store, b: S.LeaveArgs, m1: seq<Msg>, m3: seq<Msg>)
    requires b.now > 0 && b.originalConnID in v.sessions
    requires Parted(v, db, b, v2, db2, m1) && Concluded(v2, b, v3, m3)
    ensures Removed(v, db, b, v3, db2.(calls := UpdateCall(db2.calls, v3.call)), m1 + S.GoodbyeMsgs(b) + m3)
  {
  }

  ghost predicate Removed(v: CallState, db: Store, b: S.LeaveArgs, v': CallState, db': Store, msgs: seq<Msg>)
    requires b.now > 0
  {
    S.LeaveChoices(v, b) && S.RemoveUserSession(Some(v), db, b) == S.LeaveOutcome(Some(v'), db', msgs)
  }

  method Finish(c: LiveCall, db: Database, a: S.LeaveArgs, m1: seq<Msg>, ghost v: CallState, ghost db0: Store)
    returns (msgs: seq<Msg>, pick: ID, keys: seq<ID>)
    requires c.Valid() && db !in c.Repr && db.healthy && NamedUsers(c.SessionsValue())
    requires a.now > 0 && a.originalConnID in v.sessions && Parted(v, db0, a, c.Value(), db.data, m1)
    modifies c`call, c`Repr, db
    ensures c.Valid() && fresh(c.Repr - old(c.Repr))
    ensures Removed(v, db0, a.(pick := pick, keys := keys), c.Value(), db.data, msgs)
  {
    ghost var v2, db2 := c.Value(), db.data;
    var m3;
    m3, pick, keys := Conclude(c, db, a);
    msgs := m1 + S.GoodbyeMsgs(a) + m3;
    RemovedIs(v, v2, c.Value(), db0, db2, a.(pick := pick, keys := keys), m1, m3);
  }

  method RemoveFrom(c: LiveCall, db: Database, a: S.LeaveArgs) returns (msgs: seq<Msg>, pick: ID, keys: seq<ID>)
    requires c.Valid() && db !in c.Repr && db.healthy && NamedUsers(c.SessionsValue())
    requires a.now > 0 && a.originalConnID in c.SessionsValue()
    modifies c`call, c`Repr, c.sessions, c.recording, c.transcription, c.liveCaptions, db
    ensures c.Valid() && fresh(c.Repr - old(c.Repr))
    ensures Removed(old(c.Value()), old(db.data), a.(pick := pick, keys := keys), c.Value(), db.data, msgs)
  {
    ghost var v, db0 := c.Value(), db.data;
    var m1 := Part(c, db, a);
    msgs, pick, keys := Finish(c, db, a, m1, v, db0);
  }

  /** removeUserSession on a state. The objects the state is made of stay the same ones. */
  method RemoveOn(c: LiveCall, db: Database, a: S.LeaveArgs) returns (ok: bool, msgs: seq<Msg>, pick: ID, keys: seq<ID>)
    requires c.Valid() && db !in c.Repr && NamedUsers(c.SessionsValue())
    requires db.healthy && a.now > 0
    modifies c, c.sessions, c.recording, c.transcription, c.liveCaptions, db
    ensures c.sessions == old(c.sessions) && c.recording == old(c.recording)
    ensures c.transcription == old(c.transcription) && c.liveCaptions == old(c.liveCaptions)
    ensures ok <==> S.Leaves(Some(old(c.Value())), a)
    ensures ok ==> S.LeaveChoices(old(c.Value()), a.(pick := pick, keys := keys))
    ensures c.Valid() && fresh(c.Repr - old(c.Repr))
    ensures S.RemoveUserSession(Some(old(c.Value())), old(db.data), a.(pick := pick, keys := keys)) ==
            S.LeaveOutcome(Some(c.Value()), db.data, msgs)
  {
    if a.originalConnID !in c.sessions.at { return false, [], NONE, []; }
    msgs, pick, keys := RemoveFrom(c, db, a);
    ok := true;
  }

  /** removeUserSession: no state, or no such session in it, is an error that changes nothing. Otherwise the state and
      the database end up as the function of the values says, for a host getHostID may name and an order of the
      participants map. */
  method RemoveUserSession(c: LiveCall?, db: Database, a: S.LeaveArgs) returns (ok: bool, msgs: seq<Msg>, pick: ID, keys: seq<ID>)
    requires c != null ==> c.Valid() && db !in c.Repr && NamedUsers(c.SessionsValue())
    requires db.healthy && a.now > 0
    modifies if c == null then {} else c.Repr, db
    ensures ok <==> S.Leaves(old(OptValue(c)), a)
    ensures ok ==> S.LeaveChoices(old(OptValue(c)).value, a.(pick := pick, keys := keys))
    ensures c != null ==> c.Valid() && fresh(c.Repr - old(c.Repr))
    ensures S.RemoveUserSession(old(OptValue(c)), old(db.data), a.(pick := pick, keys := keys)) ==
            S.LeaveOutcome(OptValue(c), db.data, msgs)
  {
    if c == null { return false, [], NONE, []; }
    ok, msgs, pick, keys := RemoveOn(c, db, a);
  }
}
