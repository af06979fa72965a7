/** What handleJoin does with the state once it has been read (server/websocket.go), and the list of sessions a client is
    sent (server/state.go). */
module EntryHandler {
  import opened CallModel
  import opened CallStore
  import S = CallSessions
  import opened HostSuccession
  import opened CallHeap
  import opened CallHandlers
  import opened JoinHandler

  /** getStates: every session that is not the bot's, once, in the order of the map. */
  method ListStates(sessions: map<ID, Session>, order: seq<ID>) returns (states: seq<SessionView>)
    requires Enumerates(order, sessions.Keys) && forall s :: s in sessions ==> sessions[s].id == s
    ensures forall i, j :: 0 <= i < j < |states| ==> states[i].sessionID != states[j].sessionID
    ensures forall v :: v in states <==> v.sessionID in S.GetStates(sessions) && S.GetStates(sessions)[v.sessionID] == v
    ensures forall v :: v in states <==>
              && v.sessionID in sessions && sessions[v.sessionID].userID != BOT
              && var x := sessions[v.sessionID];
                 v.userID == x.userID && v.unmuted == x.unmuted && v.raisedHand == x.raisedHand && v.video == x.video
  {
    AnOrderVisits(sessions, order);
    states := [];
    for i := 0 to |order|
      invariant forall k, l :: 0 <= k < l < |states| ==> states[k].sessionID != states[l].sessionID
      invariant forall v :: v in states <==> v.sessionID in order[..i] && v.sessionID in S.GetStates(sessions) && S.GetStates(sessions)[v.sessionID] == v
    {
      var s := order[i];
      assert order[..i + 1] == order[..i] + [s] && s !in order[..i];
      if sessions[s].userID == BOT { continue; }
      states := states + [S.ViewOf(sessions[s])];
    }
    assert order[..|order|] == order;
  }

  /** The insert of a new call cannot clash: a state with one session after a join is a call that was not there. */
  lemma InsertIsNew(st: Option<CallState>, db: Store, limit: nat, b: S.JoinArgs)
    requires S.AddUserSession(st, db, limit, b).Added? && b.newCallID !in db.calls
    requires st.Some? ==> |st.value.sessions| >= 1
    ensures var v := S.AddUserSession(st, db, limit, b).state; |v.sessions| == 1 ==> v.call.id !in db.calls
  {
    if st.Some? {
      var ss := st.value.sessions;
      assert |ss[b.connID := S.NewSession(st.value.call.id, b)]| == |ss| + 1;
    }
  }

  ghost predicate Announced(v: CallState, db: Store, a: S.JoinArgs, v': CallState, db': Store, msgs: seq<Msg>) {
    var call := if |v.sessions| == 1 then v.call.(postID := a.postID, threadID := a.threadID) else v.call;
    && v' == v.(call := call)
    && db' == (if |v.sessions| == 1 then db.(calls := UpdateCall(db.calls, call)) else db)
    && msgs == S.StartMsgs(v', a) + S.WelcomeMsgs(v', a)
  }

  method PostCall(c: LiveCall, db: Database, a: S.JoinArgs)
    requires c.Valid() && db !in c.Repr && db.healthy
    modifies c`call, db
    ensures c.Valid()
    ensures var v := old(c.Value());
            var call := v.call.(postID := a.postID, threadID := a.threadID);
            c.Value() == v.(call := call) && db.data == old(db.data).(calls := UpdateCall(old(db.data).calls, call))
  {
    c.call := c.call.(postID := a.postID, threadID := a.threadID);
    var _ := db.UpdateCallRow(c.call.Value());
  }

  method Welcome(c: LiveCall, a: S.JoinArgs) returns (msgs: seq<Msg>)
    requires c.Valid()
    ensures msgs == S.WelcomeMsgs(c.Value(), a)
  {
    if !a.rtcOK { return []; }
    var view := map s | s in c.sessions.at :: c.sessions.at[s].Value();
    var snapshot := ClientState(S.GetStates(view), c.call.screenSharingSessionID, c.call.Value().HostID());
    msgs := if a.userID != BOT then [Msg(a.channelID, UserJoined(a.userID, a.connID), ToChannel)] else [];
    msgs := msgs + [Msg(a.channelID, Snapshot(snapshot), ToUser(a.userID))];
  }

  /** What follows a session's entry: the post of a new call, the announcements, the snapshot for the one who joined. */
  method Announce(c: LiveCall, db: Database, a: S.JoinArgs) returns (msgs: seq<Msg>)
    requires c.Valid() && db !in c.Repr && db.healthy
    modifies c`call, db
    ensures c.Valid() && Announced(old(c.Value()), old(db.data), a, c.Value(), db.data, msgs)
  {
    assert c.SessionsValue().Keys == c.sessions.at.Keys;
    msgs := [];
    if |c.sessions.at| == 1 {
      PostCall(c, db, a);
      msgs := [Msg(a.channelID, CallStart(c.call.id, c.call.Value().HostID()), ToChannel)];
    }
    var welcome := Welcome(c, a);
    msgs := msgs + welcome;
  }

  lemma JoinCallIs(st: Option<CallState>, db: Store, limit: nat, a: S.JoinArgs, pick: ID, v: CallState, db1: Store, v2: CallState, db2: Store,
                   m1: seq<Msg>, m2: seq<Msg>)
    requires S.AddUserSession(st, db, limit, a.(pick := pick)) == S.Added(v, db1, m1)
    requires Announced(v, db1, a, v2, db2, m2)
    ensures S.JoinCall(st, db, limit, a.(pick := pick)) == S.JoinOutcome(Some(v2), db2, m1 + m2)
  {
    assert m1 + (S.StartMsgs(v2, a) + S.WelcomeMsgs(v2, a)) == m1 + S.StartMsgs(v2, a) + S.WelcomeMsgs(v2, a);
  }

  /** addSessionToCall: the first session of a call also gives it its post and announces it. The returned state is what the
      next operation of the batch starts from. */
  method AddSessionToCall(original: LiveCall?, db: Database, limit: nat, a: S.JoinArgs)
    returns (state: LiveCall?, msgs: seq<Msg>, pick: ID)
    requires original != null ==> original.Valid() && db !in original.Repr && NamedUsers(original.SessionsValue())
    requires a.userID != NONE && db.healthy && a.newCallID !in db.data.calls
    requires original != null ==> |original.SessionsValue()| >= 1
    modifies db
    ensures state != null ==> state.Valid() && db !in state.Repr
    ensures S.Joined(old(OptValue(original)), old(db.data), limit, a.(pick := pick)) ==> S.JoinChoice(old(OptValue(original)), a.(pick := pick))
    ensures S.JoinCall(old(OptValue(original)), old(db.data), limit, a.(pick := pick)) == S.JoinOutcome(OptValue(state), db.data, msgs)
  {
    ghost var st, db0 := OptValue(original), db.data;
    var err;
    state, err, msgs, pick := AddUserSession(original, db, limit, a);
    ghost var added := S.AddUserSession(st, db0, limit, a.(pick := pick));
    if added.Added? { InsertIsNew(st, db0, limit, a.(pick := pick)); }
    if err.Some? { return; }
    ghost var v, db1, m1 := state.Value(), db.data, msgs;
    var m2 := Announce(state, db, a);
    msgs := msgs + m2;
    JoinCallIs(st, db0, limit, a, pick, v, db1, state.Value(), db.data, m1, m2);
  }
}
