/** Replaying events gives what a snapshot would: a client in step with the server stays in step over every
    server step, exactly when the step is visible to clients. */
module Replay {
  import opened CallModel
  import opened CallStore
  import opened CallJobs
  import opened CallSessions
  import opened ClientReducers

  // ----- one message -----

  lemma HostChangedSync(cl: Client, ch: ID, v: ClientState, h: ID, to: Audience)
    requires InSync(cl, ch, v)
    ensures InSync(Handle(cl, Msg(ch, HostChanged(h), to)), ch, v.(hostID := h))
  {
  }

  lemma ArrivedSync(cl: Client, ch: ID, v: ClientState, u: ID, s: ID)
    requires InSync(cl, ch, v)
    ensures InSync(Handle(cl, Msg(ch, UserJoined(u, s), ToChannel)), ch, v.(sessions := v.sessions[s := SessionView(s, u, false, 0, false)]))
  {
  }

  /** The departure of a session, while another one remains; it also clears the sharer if that was it. */
  lemma GoneSync(cl: Client, ch: ID, v: ClientState, u: ID, s: ID, other: ID)
    requires InSync(cl, ch, v) && other in v.sessions && other != s && s != NONE
    ensures InSync(HandleUserLeft(cl, ch, u, s), ch,
                   v.(sessions := v.sessions - {s},
                      screenSharingSessionID := if v.screenSharingSessionID == s then NONE else v.screenSharingSessionID))
  {
    var cl1 := Dispatch(cl, Gone(ch, u, s));
    assert other in cl1.sessions[ch];
  }

  /** A screen-off message that names nobody changes nothing the client shows. */
  lemma NamelessScreenOffSync(cl: Client, ch: ID, v: ClientState, to: Audience)
    requires InSync(cl, ch, v)
    ensures InSync(Handle(cl, Msg(ch, ScreenOff(None), to)), ch, v)
  {
  }

  lemma VideoOffSync(cl: Client, ch: ID, v: ClientState, u: ID, s: ID, to: Audience)
    requires InSync(cl, ch, v) && s in v.sessions
    ensures InSync(Handle(cl, Msg(ch, VideoOff(u, s), to)), ch, v.(sessions := v.sessions[s := v.sessions[s].(video := false)]))
  {
  }

  // ----- joining -----

  /** What a join publishes and what it leaves in the state. */
  lemma JoinShape(st: CallState, db: Store, limit: nat, a: JoinArgs)
    requires Joined(Some(st), db, limit, a)
    ensures var o := JoinCall(Some(st), db, limit, a);
            var s2 := o.state.value;
            && a.connID !in st.sessions
            && s2.sessions == st.sessions[a.connID := NewSession(st.call.id, a)]
            && s2.call.HostID() == a.pick
            && s2.call.props.screenSharingSessionID == st.call.props.screenSharingSessionID
            && o.msgs == JoinHostMsgs(st, a) + StartMsgs(s2, a) + WelcomeMsgs(s2, a)
  {
  }

  function JoinHostMsgs(st: CallState, a: JoinArgs): seq<Msg> {
    if a.pick != st.call.HostID() then [Publish(a.channelID, HostChanged(a.pick), UsersOf(st.sessions[a.connID := NewSession(st.call.id, a)]))] else []
  }

  lemma JoinHostReplay(st: CallState, s2: CallState, a: JoinArgs, cl: Client, userID: ID, v: ClientState)
    requires userID in UsersOf(st.sessions) && a.connID !in st.sessions
    requires InSync(cl, a.channelID, v) && v.hostID == st.call.HostID() && s2.call.HostID() == a.pick
    ensures InSync(Receive(Receive(cl, userID, JoinHostMsgs(st, a)), userID, StartMsgs(s2, a)), a.channelID, v.(hostID := a.pick))
  {
    var hm := JoinHostMsgs(st, a);
    var cl1 := Receive(cl, userID, hm);
    if hm != [] {
      var x :| x in st.sessions && st.sessions[x].userID == userID;
      var ss := st.sessions[a.connID := NewSession(st.call.id, a)];
      assert x in ss && ss[x].userID == userID;
      ReceiveOne(cl, userID, hm[0]);
      HostChangedSync(cl, a.channelID, v, a.pick, hm[0].to);
    }
    assert InSync(cl1, a.channelID, v.(hostID := a.pick));
    if StartMsgs(s2, a) != [] { ReceiveOne(cl1, userID, StartMsgs(s2, a)[0]); }
  }

  /** A join keeps the clients already in the call in step exactly when the joining session is the bot's or its
      RTC session could be set up: user_joined is published in no other case. */
  lemma JoinReplay(st: CallState, db: Store, limit: nat, a: JoinArgs, cl: Client, userID: ID)
    requires Joined(Some(st), db, limit, a) && userID in UsersOf(st.sessions)
    requires InSync(cl, a.channelID, GetClientState(st))
    ensures var o := JoinCall(Some(st), db, limit, a);
            InSync(Receive(cl, userID, o.msgs), a.channelID, GetClientState(o.state.value)) <==> a.userID == BOT || a.rtcOK
  {
    JoinShape(st, db, limit, a);
    var s2 := JoinCall(Some(st), db, limit, a).state.value;
    var v := GetClientState(st);
    var hm, start, welcome := JoinHostMsgs(st, a), StartMsgs(s2, a), WelcomeMsgs(s2, a);
    ReceiveConcat(cl, userID, hm + start, welcome);
    ReceiveConcat(cl, userID, hm, start);
    JoinHostReplay(st, s2, a, cl, userID, v);
    JoinStates(st, s2, a);
    WelcomeReplay(s2, a, Receive(Receive(cl, userID, hm), userID, start), userID, v.(hostID := a.pick));
  }

  lemma JoinStates(st: CallState, s2: CallState, a: JoinArgs)
    requires a.connID !in st.sessions && s2.sessions == st.sessions[a.connID := NewSession(st.call.id, a)]
    ensures a.userID == BOT ==> GetStates(s2.sessions) == GetStates(st.sessions)
    ensures a.connID !in GetStates(st.sessions)
    ensures a.userID != BOT ==> GetStates(s2.sessions) == GetStates(st.sessions)[a.connID := SessionView(a.connID, a.userID, false, 0, false)]
  {
  }

  lemma WelcomeReplay(s2: CallState, a: JoinArgs, cl: Client, userID: ID, v: ClientState)
    requires InSync(cl, a.channelID, v)
    requires a.userID == BOT ==> GetClientState(s2) == v
    requires a.userID != BOT ==> a.connID !in v.sessions
    requires a.userID != BOT ==> GetClientState(s2) == v.(sessions := v.sessions[a.connID := SessionView(a.connID, a.userID, false, 0, false)])
    ensures InSync(Receive(cl, userID, WelcomeMsgs(s2, a)), a.channelID, GetClientState(s2)) <==> a.userID == BOT || a.rtcOK
  {
    if a.rtcOK {
      WelcomedSync(s2, a, cl, userID, v);
    } else if a.userID != BOT {
      assert a.connID in GetClientState(s2).sessions && a.connID !in cl.sessions[a.channelID];
    }
  }

  lemma WelcomedSync(s2: CallState, a: JoinArgs, cl: Client, userID: ID, v: ClientState)
    requires InSync(cl, a.channelID, v) && a.rtcOK
    requires a.userID == BOT ==> GetClientState(s2) == v
    requires a.userID != BOT ==> GetClientState(s2) == v.(sessions := v.sessions[a.connID := SessionView(a.connID, a.userID, false, 0, false)])
    ensures InSync(Receive(cl, userID, WelcomeMsgs(s2, a)), a.channelID, GetClientState(s2))
  {
    var snap := Msg(a.channelID, Snapshot(GetClientState(s2)), ToUser(a.userID));
    var joined := if a.userID != BOT then [Msg(a.channelID, UserJoined(a.userID, a.connID), ToChannel)] else [];
    ReceiveConcat(cl, userID, joined, [snap]);
    var cl1 := Receive(cl, userID, joined);
    if a.userID != BOT {
      ReceiveOne(cl, userID, joined[0]);
      ArrivedSync(cl, a.channelID, v, a.userID, a.connID);
    }
    ReceiveOne(cl1, userID, snap);
    SnapshotSyncs(cl1, a.channelID, GetClientState(s2));
  }

  /** The joining user's client is in step once it has read the messages of its own join. */
  lemma JoinerSyncs(st: Option<CallState>, db: Store, limit: nat, a: JoinArgs, cl: Client)
    requires Joined(st, db, limit, a) && a.rtcOK
    ensures var o := JoinCall(st, db, limit, a);
            InSync(Receive(cl, a.userID, o.msgs), a.channelID, GetClientState(o.state.value))
  {
    var s2 := JoinCall(st, db, limit, a).state.value;
    WelcomeSyncs(cl, AddUserSession(st, db, limit, a).msgs + StartMsgs(s2, a), s2, a);
  }

  lemma WelcomeSyncs(cl: Client, before: seq<Msg>, s2: CallState, a: JoinArgs)
    requires a.rtcOK
    ensures InSync(Receive(cl, a.userID, before + WelcomeMsgs(s2, a)), a.channelID, GetClientState(s2))
  {
    var snap := Msg(a.channelID, Snapshot(GetClientState(s2)), ToUser(a.userID));
    var joined := if a.userID != BOT then [Msg(a.channelID, UserJoined(a.userID, a.connID), ToChannel)] else [];
    assert before + WelcomeMsgs(s2, a) == (before + joined) + [snap];
    ReceiveConcat(cl, a.userID, before + joined, [snap]);
    var cl1 := Receive(cl, a.userID, before + joined);
    ReceiveOne(cl1, a.userID, snap);
    SnapshotSyncs(cl1, a.channelID, GetClientState(s2));
  }

  // ----- leaving -----

  /** A leave that clients cannot follow: the bot's session, sharing or with video on. */
  predicate HiddenLeave(st: CallState, l: LeaveArgs)
    requires l.originalConnID in st.sessions
  {
    st.sessions[l.originalConnID].userID == BOT
    && (st.call.props.screenSharingSessionID == l.originalConnID || st.sessions[l.originalConnID].video)
  }

  lemma LeaveStates(st: CallState, db: Store, l: LeaveArgs, own: ID)
    requires l.now > 0 && l.originalConnID in st.sessions && own in st.sessions && own != l.originalConnID
    ensures var o := RemoveUserSession(Some(st), db, l);
            var v, v' := GetClientState(st), GetClientState(o.state.value);
            var left := st.sessions - {l.originalConnID};
            && o.msgs == LeaveMsgs(st, st.sessions[l.originalConnID], left, l)
            && v'.sessions == v.sessions - {l.originalConnID}
            && v'.screenSharingSessionID == (if v.screenSharingSessionID == l.originalConnID then NONE else v.screenSharingSessionID)
            && (HostLeaves(st.call, left, l) ==> v'.hostID == l.pick)
            && (!HostLeaves(st.call, left, l) ==> v'.hostID == v.hostID)
  {
    var left := st.sessions - {l.originalConnID};
    assert own in left;
    assert |left| > 0;
  }

  /** A leave keeps every client that stays in the call in step unless it is hidden: the screen-off message of a
      leaving sharer names no session, and it is user_left that clears the sharer. */
  lemma LeaveReplay(st: CallState, db: Store, l: LeaveArgs, cl: Client, userID: ID, own: ID)
    requires l.now > 0 && l.originalConnID in st.sessions && l.originalConnID != NONE
    requires st.sessions[l.originalConnID].userID == l.userID
    requires forall s :: s in st.sessions ==> st.sessions[s].id == s
    requires own in st.sessions && own != l.originalConnID && st.sessions[own].userID == userID != BOT
    requires InSync(cl, l.channelID, GetClientState(st))
    ensures var o := RemoveUserSession(Some(st), db, l);
            InSync(Receive(cl, userID, o.msgs), l.channelID, GetClientState(o.state.value)) <==> !HiddenLeave(st, l)
  {
    var us := st.sessions[l.originalConnID];
    var left := st.sessions - {l.originalConnID};
    var users := UsersOf(left);
    assert left[own] == st.sessions[own];
    assert userID in users;
    LeaveStates(st, db, l, own);
    var v := GetClientState(st);
    var v' := GetClientState(RemoveUserSession(Some(st), db, l).state.value);
    var m1 := MediaOffMsgs(st, us, l, users);
    ThreeParts(cl, userID, m1, GoodbyeMsgs(l), RehostMsgs(st.call, left, l, users));
    var cl1 := Receive(cl, userID, m1);
    var cl2 := Receive(cl1, userID, GoodbyeMsgs(l));
    MediaOffReplay(st, us, l, cl, userID, users, v);
    if us.userID == BOT {
      BotLeaveReplay(st, l, cl, cl1, v, v');
    } else {
      VisibleLeaveReplay(l, cl1, cl2, userID, own, v, us.video);
    }
    RehostSync(st.call, left, l, users, cl2, userID, v.hostID, v');
  }

  /** The host message, when there is one, sets the host and nothing else. */
  lemma RehostSync(call: Call, left: map<ID, Session>, l: LeaveArgs, users: set<ID>, cl: Client, userID: ID, oldHost: ID, v: ClientState)
    requires userID in users && Lookup(cl.hosts, l.channelID) == Some(oldHost)
    requires v.hostID == if HostLeaves(call, left, l) then l.pick else oldHost
    ensures InSync(Receive(cl, userID, RehostMsgs(call, left, l, users)), l.channelID, v) <==> InSync(cl, l.channelID, v.(hostID := oldHost))
  {
    var m := RehostMsgs(call, left, l, users);
    if m != [] { ReceiveOne(cl, userID, m[0]); }
  }

  lemma ThreeParts(cl: Client, userID: ID, a: seq<Msg>, b: seq<Msg>, c: seq<Msg>)
    ensures Receive(cl, userID, a + b + c) == Receive(Receive(Receive(cl, userID, a), userID, b), userID, c)
  {
    ReceiveConcat(cl, userID, a + b, c);
    ReceiveConcat(cl, userID, a, b);
  }

  lemma VisibleLeaveReplay(l: LeaveArgs, cl1: Client, cl2: Client, userID: ID, own: ID, v: ClientState, video: bool)
    requires l.userID != BOT && l.originalConnID in v.sessions && l.originalConnID != NONE
    requires own in v.sessions && own != l.originalConnID
    requires InSync(cl1, l.channelID, v.(sessions := v.sessions[l.originalConnID := v.sessions[l.originalConnID].(video := false)]))
    requires cl2 == Receive(cl1, userID, GoodbyeMsgs(l))
    ensures InSync(cl2, l.channelID, v.(sessions := v.sessions - {l.originalConnID},
              screenSharingSessionID := if v.screenSharingSessionID == l.originalConnID then NONE else v.screenSharingSessionID))
  {
    var v1 := v.(sessions := v.sessions[l.originalConnID := v.sessions[l.originalConnID].(video := false)]);
    ReceiveOne(cl1, userID, GoodbyeMsgs(l)[0]);
    GoneSync(cl1, l.channelID, v1, l.userID, l.originalConnID, own);
    assert v1.sessions - {l.originalConnID} == v.sessions - {l.originalConnID};
  }

  /** The bot's departure is not announced, so nothing clears what clients were told about its session. */
  lemma BotLeaveReplay(st: CallState, l: LeaveArgs, cl: Client, cl1: Client, v: ClientState, v': ClientState)
    requires l.originalConnID in st.sessions && st.sessions[l.originalConnID].userID == BOT && l.originalConnID !in v.sessions
    requires v == GetClientState(st) && l.originalConnID != NONE
    requires InSync(cl, l.channelID, v) && v'.sessions == v.sessions - {l.originalConnID}
    requires v'.screenSharingSessionID == (if v.screenSharingSessionID == l.originalConnID then NONE else v.screenSharingSessionID)
    requires Lookup(cl1.screens, l.channelID) == Lookup(cl.screens, l.channelID) || Lookup(cl.screens, l.channelID) == None
    requires !st.sessions[l.originalConnID].video ==> InSync(cl1, l.channelID, v)
    requires st.sessions[l.originalConnID].video ==> l.channelID in cl1.sessions && l.originalConnID in cl1.sessions[l.channelID]
    ensures InSync(cl1, l.channelID, v'.(hostID := v.hostID)) <==> !HiddenLeave(st, l)
    ensures v'.screenSharingSessionID != v.screenSharingSessionID ==> Lookup(cl1.screens, l.channelID) == Some(l.originalConnID)
  {
    assert v'.sessions == v.sessions;
  }

  /** The messages before user_left: a nameless screen-off, and video-off for a session that had video on. */
  lemma MediaOffReplay(st: CallState, us: Session, l: LeaveArgs, cl: Client, userID: ID, users: set<ID>, v: ClientState)
    requires InSync(cl, l.channelID, v) && userID in users
    requires us.userID != BOT ==> l.originalConnID in v.sessions && v.sessions[l.originalConnID].video == us.video
    requires us.userID == BOT ==> l.originalConnID !in v.sessions
    ensures var cl1 := Receive(cl, userID, MediaOffMsgs(st, us, l, users));
            && (us.userID != BOT ==>
                  InSync(cl1, l.channelID, v.(sessions := v.sessions[l.originalConnID := v.sessions[l.originalConnID].(video := false)])))
            && (us.userID == BOT && !us.video ==> InSync(cl1, l.channelID, v))
            && (us.userID == BOT && us.video ==> l.channelID in cl1.sessions && l.originalConnID in cl1.sessions[l.channelID])
            && (Lookup(cl1.screens, l.channelID) == Lookup(cl.screens, l.channelID) || Lookup(cl.screens, l.channelID) == None)
            && cl1.hosts == cl.hosts
  {
    var a := if st.call.props.screenSharingSessionID == l.originalConnID then [Publish(l.channelID, ScreenOff(None), users)] else [];
    var b := if us.video then [Publish(l.channelID, VideoOff(l.userID, l.originalConnID), users)] else [];
    assert MediaOffMsgs(st, us, l, users) == a + b;
    ReceiveConcat(cl, userID, a, b);
    var cl1 := Receive(cl, userID, a);
    if a != [] { ReceiveOne(cl, userID, a[0]); NamelessScreenOffSync(cl, l.channelID, v, a[0].to); }
    assert InSync(cl1, l.channelID, v);
    if b != [] {
      ReceiveOne(cl1, userID, b[0]);
      if us.userID != BOT { VideoOffSync(cl1, l.channelID, v, l.userID, l.originalConnID, b[0].to); }
    }
  }

  // ----- host, media, screen -----

  lemma MakeHostReplay(st: CallState, db: Store, ch: ID, requesterID: ID, isAdmin: bool, newHostID: ID, cl: Client, userID: ID)
    requires userID in UsersOf(st.sessions) && InSync(cl, ch, GetClientState(st))
    requires st.call.id in db.calls && db.calls[st.call.id] == st.call
    ensures var o := ChangeHost(Some(st), db, ch, requesterID, isAdmin, newHostID);
            InSync(Receive(cl, userID, o.msgs), ch, GetClientState(st.(call := o.db.calls[st.call.id])))
  {
    var o := ChangeHost(Some(st), db, ch, requesterID, isAdmin, newHostID);
    if o.msgs != [] { ReceiveOne(cl, userID, o.msgs[0]); }
  }

  function MediaView(v: SessionView, m: Media, now: nat): SessionView {
    match m
    case Mute => v.(unmuted := false)
    case Unmute => v.(unmuted := true)
    case Raise => v.(raisedHand := now)
    case Unraise => v.(raisedHand := 0)
    case CamOn => v.(video := true)
    case CamOff => v.(video := false)
  }

  lemma MediaMessage(cl: Client, ch: ID, v: ClientState, u: ID, s: ID, m: Media, now: nat, to: Audience)
    requires InSync(cl, ch, v)
    ensures var cl' := Handle(cl, Msg(ch, MediaEvent(u, s, m, now), to));
            && (s in v.sessions ==> InSync(cl', ch, v.(sessions := v.sessions[s := MediaView(v.sessions[s], m, now)])))
            && ch in cl'.sessions && s in cl'.sessions[ch]
  {
  }

  lemma SignalMessage(cl: Client, ch: ID, v: ClientState, u: ID, s: ID, x: Signal, to: Audience)
    requires InSync(cl, ch, v)
    ensures InSync(Handle(cl, Msg(ch, SignalEvent(u, s, x), to)), ch, v) <==> s in v.sessions
  {
    var cl' := Handle(cl, Msg(ch, SignalEvent(u, s, x), to));
    assert ch in cl'.sessions && s in cl'.sessions[ch];
  }

  /** A mute, hand or video message keeps clients in step exactly when it is about a session they can see. */
  lemma MediaReplay(st: CallState, db: Store, ch: ID, u: ID, s: ID, m: Media, now: nat, cl: Client, userID: ID)
    requires userID in UsersOf(st.sessions) && InSync(cl, ch, GetClientState(st))
    requires s in st.sessions && st.sessions[s].id == s
    ensures var o := HandleMedia(Some(st), db, ch, u, s, m, now);
            InSync(Receive(cl, userID, o.msgs), ch, GetClientState(st.(sessions := st.sessions[s := WithMedia(st.sessions[s], m, now)])))
            <==> st.sessions[s].userID != BOT
  {
    var msg := Publish(ch, MediaEvent(u, s, m, now), UsersOf(st.sessions));
    assert HandleMedia(Some(st), db, ch, u, s, m, now).msgs == [msg];
    ReceiveOne(cl, userID, msg);
    var v := GetClientState(st);
    MediaMessage(cl, ch, v, u, s, m, now, msg.to);
    MediaStates(st, s, m, now);
  }

  lemma MediaStates(st: CallState, s: ID, m: Media, now: nat)
    requires s in st.sessions && st.sessions[s].id == s
    ensures var v' := GetStates(st.sessions[s := WithMedia(st.sessions[s], m, now)]);
            var v := GetStates(st.sessions);
            && (st.sessions[s].userID != BOT ==> s in v && v' == v[s := MediaView(v[s], m, now)])
            && (st.sessions[s].userID == BOT ==> s !in v')
  {
    var x := WithMedia(st.sessions[s], m, now);
    assert x.userID == st.sessions[s].userID;
    if x.userID != BOT { assert ViewOf(x) == MediaView(ViewOf(st.sessions[s]), m, now); }
  }

  lemma ShareReplay(st: CallState, db: Store, ch: ID, u: ID, s: ID, on: bool, now: nat, cl: Client, userID: ID)
    requires userID in UsersOf(st.sessions) && InSync(cl, ch, GetClientState(st)) && s != NONE
    requires st.call.id in db.calls && db.calls[st.call.id] == st.call
    ensures var o := HandleScreen(Some(st), db, ch, u, s, on, now);
            InSync(Receive(cl, userID, o.msgs), ch, GetClientState(st.(call := o.db.calls[st.call.id])))
  {
    var o := HandleScreen(Some(st), db, ch, u, s, on, now);
    if o.msgs != [] { ReceiveOne(cl, userID, o.msgs[0]); }
  }
}
