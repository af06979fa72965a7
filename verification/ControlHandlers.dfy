/** Host, screen and media controls on the heap (server/host_controls.go, server/websocket.go), on the state read under the
    call lock. */
module ControlHandlers {
  import opened CallModel
  import opened CallStore
  import S = CallSessions
  import opened HostSuccession
  import opened CallHeap
  import opened CallHandlers
  import opened JoinHandler

  method UsersIn(c: LiveCall) returns (users: set<ID>)
    requires c.Valid()
    ensures users == UsersOf(c.SessionsValue())
  {
    var view := map s | s in c.sessions.at :: c.sessions.at[s].Value();
    users := UsersOf(view);
  }

  method UserInCall(c: LiveCall, userID: ID) returns (found: bool)
    requires c.Valid()
    ensures found <==> InCall(c.SessionsValue(), userID)
  {
    var view := map s | s in c.sessions.at :: c.sessions.at[s].Value();
    var order := MapKeys(view.Keys);
    found := IsUserIDInCall(view, userID, order);
  }

  /** changeHost. */
  method ChangeHost(c: LiveCall?, db: Database, channelID: ID, requesterID: ID, isAdmin: bool, newHostID: ID) returns (msgs: seq<Msg>)
    requires c != null ==> c.Valid() && db !in c.Repr
    requires db.healthy
    modifies if c == null then {} else {c}, db
    ensures S.ChangeHost(old(OptValue(c)), old(db.data), channelID, requesterID, isAdmin, newHostID) == S.Outcome(db.data, msgs)
  {
    msgs := [];
    if c == null { return; }
    if requesterID != c.call.Value().HostID() && !isAdmin { return; }
    if newHostID == BOT { return; }
    if c.call.Value().HostID() == newHostID {
      if c.call.hostLockedUserID == NONE {
        c.call := c.call.(hostLockedUserID := newHostID);
        var _ := db.UpdateCallRow(c.call.Value());
      }
      return;
    }
    var present := UserInCall(c, newHostID);
    if !present { return; }
    msgs := TakeRole(c, db, channelID, newHostID);
  }

  method TakeRole(c: LiveCall, db: Database, channelID: ID, newHostID: ID) returns (msgs: seq<Msg>)
    requires c.Valid() && db !in c.Repr && db.healthy
    modifies c, db
    ensures var v := old(c.Value());
            && db.data == old(db.data).(calls := UpdateCall(old(db.data).calls,
                            v.call.(props := v.call.props.(hosts := [newHostID], hostLockedUserID := newHostID))))
            && msgs == [S.Publish(channelID, HostChanged(newHostID), UsersOf(v.sessions))]
  {
    var users := UsersIn(c);
    SetHost(c, newHostID);
    c.call := c.call.(hostLockedUserID := newHostID);
    var _ := db.UpdateCallRow(c.call.Value());
    msgs := [S.Publish(channelID, HostChanged(newHostID), users)];
  }

  /** hostEnd until it releases the lock: clients are told to leave exactly when the host or an admin asks, of an ongoing
      call; the state is not touched. */
  method AskToEnd(c: LiveCall?, channelID: ID, requesterID: ID, isAdmin: bool) returns (msgs: seq<Msg>)
    requires c != null ==> c.Valid()
    ensures msgs == S.HostEnd(OptValue(c), channelID, requesterID, isAdmin)
    ensures msgs != [] <==> c != null && (requesterID == c.Value().call.HostID() || isAdmin)
    ensures msgs != [] ==> msgs == [Msg(channelID, CallEnd, ToChannel)]
  {
    if c == null { return []; }
    if requesterID != c.call.Value().HostID() && !isAdmin { return []; }
    msgs := [Msg(channelID, CallEnd, ToChannel)];
  }

  method MakeDismissed(c: LiveCall)
    requires c.Valid() && c.call.dismissed == null
    modifies c`call, c`Repr
    ensures c.Valid() && fresh(c.Repr - old(c.Repr)) && c.Value() == old(c.Value())
    ensures c.call.dismissed != null && fresh(c.call.dismissed)
  {
    var none := new Flags(map[]);
    c.call := c.call.(dismissed := none);
    c.Repr := c.Repr + {none};
  }

  method NoteDismissed(c: LiveCall, userID: ID)
    requires c.Valid() && c.call.dismissed != null
    modifies c.call.dismissed
    ensures c.Valid()
    ensures var v := old(c.Value());
            c.Value() == v.(call := v.call.(props := v.call.props.(dismissed := v.call.props.dismissed[userID := true])))
  {
    ghost var was := c.SessionsValue();
    c.call.dismissed.at := c.call.dismissed.at[userID := true];
    assert c.SessionsValue() == was;
  }

  /** handleDismissNotification; the message, to that user alone, is not about anything kept here. */
  method Dismiss(c: LiveCall?, db: Database, userID: ID)
    requires c != null ==> c.Valid() && db !in c.Repr
    requires db.healthy
    modifies if c == null then {} else c.Repr, db
    ensures c != null ==> c.Valid() && fresh(c.Repr - old(c.Repr))
    ensures db.data == S.DismissCall(old(OptValue(c)), old(db.data), userID)
  {
    if c == null { return; }
    if c.call.dismissed == null { MakeDismissed(c); }
    NoteDismissed(c, userID);
    var _ := db.UpdateCallRow(c.call.Value());
  }

  /** handleClientMessageTypeScreen. */
  method Screen(c: LiveCall?, db: Database, channelID: ID, userID: ID, sessionID: ID, on: bool, now: nat) returns (msgs: seq<Msg>)
    requires c != null ==> c.Valid() && db !in c.Repr
    requires db.healthy
    modifies if c == null then {} else {c}, db
    ensures S.HandleScreen(old(OptValue(c)), old(db.data), channelID, userID, sessionID, on, now) == S.Outcome(db.data, msgs)
  {
    msgs := [];
    if c == null { return; }
    var users := UsersIn(c);
    if on {
      if c.call.screenSharingSessionID != NONE { return; }
      c.call := c.call.(screenSharingSessionID := sessionID, screenStartAt := now / 1000);
    } else {
      if c.call.screenSharingSessionID != sessionID { return; }
      if c.call.screenStartAt > 0 {
        c.call := c.call.(screenDuration := S.SecondsSince(c.call.screenStartAt, now));
      }
      c.call := c.call.(screenSharingSessionID := NONE, screenStartAt := 0);
    }
    var _ := db.UpdateCallRow(c.call.Value());
    msgs := [S.Publish(channelID, if on then ScreenOn(userID, sessionID) else ScreenOff(Some(sessionID)), users)];
  }

  /** The mute, hand and video cases of handleClientMsg: the session object of the state is changed, then its row. */
  method ChangeMedia(c: LiveCall?, db: Database, channelID: ID, userID: ID, sessionID: ID, m: S.Media, now: nat) returns (msgs: seq<Msg>)
    requires c != null ==> c.Valid() && db !in c.Repr
    requires db.healthy
    modifies if c == null then {} else c.Repr, db
    ensures S.HandleMedia(old(OptValue(c)), old(db.data), channelID, userID, sessionID, m, now) == S.Outcome(db.data, msgs)
  {
    if c == null || sessionID !in c.sessions.at { return []; }
    var users := UsersIn(c);
    var session := c.sessions.at[sessionID];
    match m {
      case Mute => session.unmuted := false;
      case Unmute => session.unmuted := true;
      case Raise => session.raisedHand := now;
      case Unraise => session.raisedHand := 0;
      case CamOn => session.video := true;
      case CamOff => session.video := false;
    }
    var _ := db.UpdateCallSession(session.Value());
    msgs := [S.Publish(channelID, S.MediaEvent(userID, sessionID, m, now), users)];
  }
}
