/** What each step comes to, said of the rows before and after it and of the messages it publishes, without the
    functions that compute them. */
module StepOutcomes {
  import opened CallModel
  import opened CallStore
  import opened CallJobs
  import opened JobSafety
  import opened CallSessions
  import opened CallEngine
  import opened CallInvariant
  import opened CallTheorems
  import opened ClientReducers
  import O = JobOutcomes

  // ----- who reads a message -----

  lemma DeliveredInCall(m: Msg, ss: map<ID, Session>, userID: ID)
    requires m.to == ToUsers(UsersOf(ss))
    ensures Delivered(m, userID) <==> InCall(ss, userID)
  {
  }

  /** A broadcast about a call somebody is in goes to the users in it and to no other member of the channel. */
  lemma PublishedTo(ch: ID, ev: Event, ss: map<ID, Session>, s: ID)
    requires s in ss
    ensures Publish(ch, ev, UsersOf(ss)) == Msg(ch, ev, ToUsers(UsersOf(ss)))
  {
    assert ss[s].userID in UsersOf(ss);
  }

  // ----- joining -----

  /** The record of a new call, column by column: started and created now, owned and hosted by the one who joins, on the
      host the RTCD manager answered with, if any; nobody shares, nothing is locked or dismissed. */
  lemma NewCallRow(w: World, limit: nat, a: JoinArgs)
    requires Inv(w, limit) && Enabled(w, limit, Join(a)) && Joined(ReadState(w.db, a.channelID), w.db, limit, a)
    requires forall c :: !IsActiveCall(w.db.calls, a.channelID, c)
    ensures var w' := Next(w, limit, Join(a));
            var props := Props([a.userID], match a.rtcd { case Host(ip) => ip case _ => NONE }, NONE, 0, a.nodeID, {a.userID}, NONE, map[]);
            && a.newCallID !in w.db.calls
            && w'.db.calls == w.db.calls[a.newCallID :=
                 Call(a.newCallID, a.channelID, a.now, 0, a.now, a.postID, a.threadID, a.userID, [], 0, props)]
            && w'.db.sessions == w.db.sessions[a.connID := Session(a.connID, a.newCallID, a.userID, a.now, false, 0, false)]
            && w'.db.jobs == w.db.jobs
  {
    ReadFacts(w, limit, a.channelID);
    BaseFacts(w, limit, a);
    NewCallIffSingleSession(w, limit, a);
    FirstIsHost(a);
    var o := JoinCall(None, w.db, limit, a);
    assert o.state.value.call.props.hosts == [a.userID];
  }

  lemma FirstIsHost(a: JoinArgs)
    requires HostChosen(NewCall(a), a) && a.userID != NONE && a.userID != BOT
    ensures a.pick == a.userID
  {
    var ss := NewCall(a).sessions[a.connID := NewSession(a.newCallID, a)];
    assert ss[a.connID].userID == a.userID;
    assert SomeoneInCall(ss);
  }

  /** A join of an ongoing call: of its record only the hosts and the participants may change, these by the joining user. */
  lemma JoinedRow(w: World, limit: nat, a: JoinArgs, c: ID)
    requires Inv(w, limit) && Enabled(w, limit, Join(a)) && Joined(ReadState(w.db, a.channelID), w.db, limit, a)
    requires IsActiveCall(w.db.calls, a.channelID, c)
    ensures var w' := Next(w, limit, Join(a));
            var call := w.db.calls[c];
            && c in w'.db.calls
            && w'.db.calls == w.db.calls[c := call.(props := call.props.(
                 hosts := w'.db.calls[c].props.hosts,
                 participants := if a.userID == BOT then call.props.participants else call.props.participants + {a.userID}))]
            && (w'.db.calls[c].HostID() == call.HostID() ==> w'.db.calls[c].props.hosts == call.props.hosts)
            && (w'.db.calls[c].HostID() != call.HostID() ==> |w'.db.calls[c].props.hosts| == 1)
            && w'.db.sessions == w.db.sessions[a.connID := Session(a.connID, c, a.userID, a.now, false, 0, false)]
  {
    ReadsCall(w, limit, c);
    BaseFacts(w, limit, a);
    NewCallIffSingleSession(w, limit, a);
    var call' := JoinCall(ReadState(w.db, a.channelID), w.db, limit, a).state.value.call;
    assert call' == AdmittedCall(w.db.calls[c], a);
  }

  /** What a client is told of the sessions: those that are not the bot's, as they are. */
  function Told(ss: map<ID, Session>): map<ID, SessionView> {
    map s | s in ss && ss[s].userID != BOT :: SessionView(ss[s].id, ss[s].userID, ss[s].unmuted, ss[s].raisedHand, ss[s].video)
  }

  lemma JoinParts(st: Option<CallState>, db: Store, limit: nat, a: JoinArgs)
    requires Joined(st, db, limit, a)
    ensures var o := JoinCall(st, db, limit, a);
            var s2 := o.state.value;
            && s2.call.HostID() == a.pick
            && o.msgs ==
              (if a.pick != BaseState(st, a).call.HostID() then [Msg(a.channelID, HostChanged(a.pick), ToUsers(UsersOf(s2.sessions)))] else [])
              + (if |s2.sessions| == 1 then [Msg(a.channelID, CallStart(s2.call.id, a.pick), ToChannel)] else [])
              + (if a.rtcOK && a.userID != BOT then [Msg(a.channelID, UserJoined(a.userID, a.connID), ToChannel)] else [])
              + (if a.rtcOK then [Msg(a.channelID, Snapshot(GetClientState(s2)), ToUser(a.userID))] else [])
  {
    var o := JoinCall(st, db, limit, a);
    var s2 := o.state.value;
    PublishedTo(a.channelID, HostChanged(a.pick), s2.sessions, a.connID);
    assert AddUserSession(st, db, limit, a).state.sessions == s2.sessions;
    var x := AddUserSession(st, db, limit, a).msgs + StartMsgs(s2, a);
    var y := if a.rtcOK && a.userID != BOT then [Msg(a.channelID, UserJoined(a.userID, a.connID), ToChannel)] else [];
    var z := if a.rtcOK then [Msg(a.channelID, Snapshot(GetClientState(s2)), ToUser(a.userID))] else [];
    assert WelcomeMsgs(s2, a) == y + z;
    Regroup(x, y, z);
  }

  /** The messages of a join: the host, to those in the call, if it changed; the call, to the channel, if it is new; the
      session, to the channel, unless it is the bot's; the state, to the one who joined. The last two only once the RTC
      session is set up. */
  lemma JoinAnnounced(w: World, limit: nat, a: JoinArgs)
    requires Inv(w, limit) && Enabled(w, limit, Join(a)) && Joined(ReadState(w.db, a.channelID), w.db, limit, a)
    ensures var w' := Next(w, limit, Join(a));
            a.connID in w'.db.sessions &&
            var c := w'.db.sessions[a.connID].callID;
            c in w'.db.calls &&
            var call := w'.db.calls[c];
            var ss := SessionsOf(w'.db.sessions, c);
            var was := if c in w.db.calls then w.db.calls[c].HostID() else NONE;
            Published(w, limit, Join(a)) ==
              (if call.HostID() != was then [Msg(a.channelID, HostChanged(call.HostID()), ToUsers(UsersOf(ss)))] else [])
              + (if c !in w.db.calls then [Msg(a.channelID, CallStart(c, call.HostID()), ToChannel)] else [])
              + (if a.rtcOK && a.userID != BOT then [Msg(a.channelID, UserJoined(a.userID, a.connID), ToChannel)] else [])
              + (if a.rtcOK then
                   [Msg(a.channelID, Snapshot(ClientState(Told(ss), call.props.screenSharingSessionID, call.HostID())), ToUser(a.userID))]
                 else [])
  {
    BaseFacts(w, limit, a);
    NewCallIffSingleSession(w, limit, a);
    var st := ReadState(w.db, a.channelID);
    var s2 := JoinCall(st, w.db, limit, a).state.value;
    SessionsOfInsert(w.db.sessions, a.connID, NewSession(s2.call.id, a));
    ToldIs(s2);
    JoinParts(st, w.db, limit, a);
  }

  lemma ToldIs(s: CallState)
    ensures GetClientState(s) == ClientState(Told(s.sessions), s.call.props.screenSharingSessionID, s.call.HostID())
  {
    var a, b := GetStates(s.sessions), Told(s.sessions);
    assert a.Keys == b.Keys;
    assert forall x :: x in a ==> a[x] == b[x];
    assert a == b;
  }

  /** Each refusal has the reason it names. */
  lemma RefusedBecause(st: Option<CallState>, db: Store, limit: nat, a: JoinArgs)
    requires !Joined(st, db, limit, a)
    ensures match AddUserSession(st, db, limit, a).reason
            case NotAllowed => st.None? && !a.allowed
            case NoRTCDHost => st.None? && a.rtcd.NoHost?
            case CallEnded => st.Some? && st.value.call.endAt > 0
            case AlreadyConnected => st.Some? && a.connID in st.value.sessions
            case LimitReached => st.Some? && limit > 0 && |st.value.sessions| >= limit
            case NoJobToJoin => a.userID == BOT
  {
  }

  // ----- leaving and cleaning up -----

  /** The whole seconds nearest to a time in milliseconds. */
  ghost predicate NearestSecond(seconds: int, ms: int) {
    ms - 500 < 1000 * seconds <= ms + 500
  }

  /** What the record of an ended call keeps, and what it loses. */
  ghost predicate EndedRecord(call: Call, row: Call, now: nat) {
    && row == Call(call.id, call.channelID, call.startAt, now, call.createAt, call.postID, call.threadID, call.ownerID,
                   row.participants, row.screenDuration,
                   Props([], NONE, row.props.screenSharingSessionID, row.props.screenStartAt, NONE, {}, call.props.hostLockedUserID, map[]))
    && Enumerates(row.participants, call.props.participants)
  }

  /** What the record of a call keeps when a session leaves that is not its last. */
  ghost predicate GoesOn(call: Call, row: Call) {
    && row == call.(screenDuration := row.screenDuration, props := call.props.(
                 hosts := row.props.hosts, screenSharingSessionID := row.props.screenSharingSessionID, screenStartAt := row.props.screenStartAt))
    && (row.HostID() == call.HostID() ==> row.props.hosts == call.props.hosts)
    && (row.HostID() != call.HostID() ==> row.props.hosts == if row.HostID() == NONE then [] else [row.HostID()])
  }

  /** The screen after a leave: a leaving sharer stops sharing; the time shared is added once, when its sharer leaves or the
      call ends. */
  ghost predicate ScreenAfterLeave(call: Call, row: Call, sessionID: ID, ends: bool, now: nat) {
    var p := call.props;
    var stops := p.screenSharingSessionID == sessionID;
    && row.props.screenSharingSessionID == (if stops then NONE else p.screenSharingSessionID)
    && row.props.screenStartAt == (if stops then 0 else p.screenStartAt)
    && (if p.screenStartAt > 0 && (stops || ends) then NearestSecond(row.screenDuration - call.screenDuration, now - p.screenStartAt * 1000)
        else row.screenDuration == call.screenDuration)
  }

  /** The record after a leave: ended at the time of the leave if the last session left, and going on otherwise. */
  lemma LeftRow(w: World, limit: nat, l: LeaveArgs, c: ID)
    requires Inv(w, limit) && Enabled(w, limit, Leave(l)) && IsActiveCall(w.db.calls, l.channelID, c)
    requires l.originalConnID in SessionsOf(w.db.sessions, c)
    ensures var w' := Next(w, limit, Leave(l));
            var call := w.db.calls[c];
            var ends := SessionsOf(w.db.sessions, c).Keys == {l.originalConnID};
            && c in w'.db.calls && w'.db.calls == w.db.calls[c := w'.db.calls[c]]
            && w'.db.sessions == w.db.sessions - {l.originalConnID}
            && (if ends then EndedRecord(call, w'.db.calls[c], l.now) else GoesOn(call, w'.db.calls[c]))
            && ScreenAfterLeave(call, w'.db.calls[c], l.originalConnID, ends, l.now)
  {
    ReadsCall(w, limit, c);
    LeaveShape(w, limit, l);
    var st := StateOf(w.db, c);
    LastOne(st.sessions, l.originalConnID);
    LeftCall(st.call, st.sessions - {l.originalConnID}, l);
  }

  lemma LeftCall(call: Call, left: map<ID, Session>, l: LeaveArgs)
    requires call.endAt == 0 && (|left| == 0 ==> Enumerates(l.keys, call.props.participants))
    ensures var row := CallAfterLeave(call, left, l);
            && (if |left| == 0 then EndedRecord(call, row, l.now) else GoesOn(call, row))
            && ScreenAfterLeave(call, row, l.originalConnID, |left| == 0, l.now)
  {
  }

  /** Cleaning up a call ends its record at that time, unless it had ended before. */
  lemma CleanedRow(w: World, limit: nat, s: Step)
    requires Inv(w, limit) && Enabled(w, limit, s) && s.Clean? && s.callID in w.db.calls
    ensures var w' := Next(w, limit, s);
            var c := s.callID;
            var call := w.db.calls[c];
            && c in w'.db.calls && w'.db.calls == w.db.calls[c := w'.db.calls[c]]
            && (if call.endAt != 0 then w'.db.calls[c] == call
                else EndedRecord(call, w'.db.calls[c], s.now)
                     && w'.db.calls[c].screenDuration == call.screenDuration
                     && w'.db.calls[c].props.screenSharingSessionID == call.props.screenSharingSessionID
                     && w'.db.calls[c].props.screenStartAt == call.props.screenStartAt)
  {
    var call := w.db.calls[s.callID];
    UpdateIsWrite(w.db.calls, if call.endAt == 0 then SetCallEnded(call, s.now, s.keys) else call);
  }

  /** Its sessions, and no others, go; its running recording, transcription and foremost captions end, and no other row
      changes; neither a recording nor a transcription of it runs any more. */
  lemma CleanedRest(w: World, limit: nat, s: Step)
    requires Inv(w, limit) && Enabled(w, limit, s) && s.Clean? && s.callID in w.db.calls
    ensures var w' := Next(w, limit, s);
            && (forall x :: x in w'.db.sessions <==> x in w.db.sessions && w.db.sessions[x].callID != s.callID)
            && (forall x :: x in w'.db.sessions ==> w'.db.sessions[x] == w.db.sessions[x])
            && CleanedJobs(w.db.jobs, w'.db.jobs, s.callID, s.now)
            && O.Quiet(w'.db.jobs, s.callID)
  {
    JobsCleaned(w.db.jobs, s.callID, s.now);
  }

  ghost predicate CleanedJobs(rows: map<ID, Job>, rows': map<ID, Job>, callID: ID, now: nat) {
    var j := JobsOf(rows, callID);
    && rows'.Keys == rows.Keys
    && forall k :: k in rows ==>
         (rows'[k] == if j.recording == Some(rows[k]) || j.transcription == Some(rows[k]) || j.liveCaptions == Some(rows[k])
                      then rows[k].(endAt := now) else rows[k])
  }

  lemma JobsCleaned(rows: map<ID, Job>, callID: ID, now: nat)
    requires JobsKeyed(rows) && OneOfEach(rows) && now > 0
    ensures var rows' := EndAll(JobsOf(rows, callID), rows, now);
            CleanedJobs(rows, rows', callID, now) && O.Quiet(rows', callID)
  {
    JobsOfBacked(rows, callID);
    EndAllOK(JobsDb(JobsOf(rows, callID), rows), now);
    O.EndedIsQuiet(rows, EndAll(JobsOf(rows, callID), rows, now), callID);
  }

  /** The messages of a leave: the sharer's end, without naming it, and the camera's, to those who stay; the departure, to the
      channel, unless it is the bot's; the new host, to those who stay. With nobody left the first two go to the channel. */
  lemma LeaveAnnounced(w: World, limit: nat, l: LeaveArgs, c: ID)
    requires Inv(w, limit) && Enabled(w, limit, Leave(l)) && IsActiveCall(w.db.calls, l.channelID, c)
    requires l.originalConnID in SessionsOf(w.db.sessions, c)
    ensures var w' := Next(w, limit, Leave(l));
            var ss, left := SessionsOf(w.db.sessions, c), SessionsOf(w'.db.sessions, c);
            var to := if UsersOf(left) == {} then ToChannel else ToUsers(UsersOf(left));
            c in w'.db.calls &&
            var host, was := w'.db.calls[c].HostID(), w.db.calls[c].HostID();
            Published(w, limit, Leave(l)) ==
              (if w.db.calls[c].props.screenSharingSessionID == l.originalConnID then [Msg(l.channelID, ScreenOff(None), to)] else [])
              + (if ss[l.originalConnID].video then [Msg(l.channelID, VideoOff(l.userID, l.originalConnID), to)] else [])
              + (if l.userID != BOT then [Msg(l.channelID, UserLeft(l.userID, l.originalConnID), ToChannel)] else [])
              + (if w'.db.calls[c].endAt == 0 && host != was then [Msg(l.channelID, HostChanged(host), to)] else [])
  {
    ReadsCall(w, limit, c);
    LeaveShape(w, limit, l);
    LeftHost(w.db.calls[c], SessionsOf(w.db.sessions, c) - {l.originalConnID}, l);
  }

  lemma LeftHost(call: Call, left: map<ID, Session>, l: LeaveArgs)
    requires call.endAt == 0 && l.now > 0
    ensures var row := CallAfterLeave(call, left, l);
            && (row.endAt == 0 <==> |left| > 0)
            && (HostLeaves(call, left, l) <==> row.endAt == 0 && row.HostID() != call.HostID())
            && (HostLeaves(call, left, l) ==> row.HostID() == l.pick)
  {
  }

  // ----- media, sharing, hosts -----

  /** A media message changes the one thing it is about in the one session's row. */
  lemma MediaRow(w: World, limit: nat, s: Step, c: ID)
    requires Inv(w, limit) && Enabled(w, limit, s) && s.SendMedia? && IsActiveCall(w.db.calls, s.channelID, c)
    ensures var w' := Next(w, limit, s);
            var x := s.sessionID;
            if x in SessionsOf(w.db.sessions, c) then
              var row := w.db.sessions[x];
              w'.db == w.db.(sessions := w.db.sessions[x := Session(x, c, row.userID, row.joinAt,
                                           if s.media.Mute? then false else if s.media.Unmute? then true else row.unmuted,
                                           if s.media.Raise? then s.now else if s.media.Unraise? then 0 else row.raisedHand,
                                           if s.media.CamOn? then true else if s.media.CamOff? then false else row.video)])
            else w'.db == w.db
  {
    ReadsCall(w, limit, c);
    if s.sessionID in SessionsOf(w.db.sessions, c) {
      MediaShape(StateOf(w.db, c), w.db, s.channelID, s.userID, s.sessionID, s.media, s.now);
    }
  }

  /** It is announced once, about that session and its user, to exactly the users in the call; about a session that is not in
      the call nothing is. */
  lemma MediaAnnounced(w: World, limit: nat, s: Step, c: ID)
    requires Inv(w, limit) && Enabled(w, limit, s) && s.SendMedia? && IsActiveCall(w.db.calls, s.channelID, c)
    ensures var ss := SessionsOf(w.db.sessions, c);
            var msgs := Published(w, limit, s);
            if s.sessionID in ss then
              var u := ss[s.sessionID].userID;
              && |msgs| == 1 && msgs[0].channelID == s.channelID
              && msgs[0].ev == (match s.media
                                case Mute => UserMuted(u, s.sessionID)
                                case Unmute => UserUnmuted(u, s.sessionID)
                                case Raise => RaiseHand(u, s.sessionID, s.now)
                                case Unraise => UnraiseHand(u, s.sessionID, 0)
                                case CamOn => VideoOn(u, s.sessionID)
                                case CamOff => VideoOff(u, s.sessionID))
              && forall v :: Delivered(msgs[0], v) <==> InCall(ss, v)
            else msgs == []
  {
    ReadsCall(w, limit, c);
    var ss := SessionsOf(w.db.sessions, c);
    if s.sessionID in ss {
      PublishedTo(s.channelID, MediaEvent(s.userID, s.sessionID, s.media, s.now), ss, s.sessionID);
      forall v { DeliveredInCall(Published(w, limit, s)[0], ss, v); }
    }
  }

  lemma NoKeys(keys: set<ID>)
    requires !exists k :: k in keys
    ensures |keys| == 0
  {
    assert forall k: ID :: k in keys ==> k in {NONE};
    assert keys <= {NONE} && NONE !in keys;
  }

  /** A call that has a session has a user to publish to. */
  lemma SomeUser(ss: map<ID, Session>)
    requires |ss| >= 1
    ensures UsersOf(ss) != {}
  {
    if s :| s in ss {
      assert ss[s].userID in UsersOf(ss);
    } else {
      NoKeys(ss.Keys);
    }
  }

  /** Whether a request to share, or to stop, is granted: sharing is one at a time, and only the sharer stops it. */
  predicate Granted(call: Call, sessionID: ID, on: bool) {
    call.props.screenSharingSessionID == if on then NONE else sessionID
  }

  lemma ShareRow(w: World, limit: nat, s: Step, c: ID)
    requires Inv(w, limit) && Enabled(w, limit, s) && s.Share? && IsActiveCall(w.db.calls, s.channelID, c)
    ensures var w' := Next(w, limit, s);
            var call := w.db.calls[c];
            c in w'.db.calls &&
            var row := w'.db.calls[c];
            if !Granted(call, s.sessionID, s.on) then w'.db == w.db
            else
              && w'.db == w.db.(calls := w.db.calls[c := row])
              && row == call.(screenDuration := row.screenDuration,
                              props := call.props.(screenSharingSessionID := if s.on then s.sessionID else NONE, screenStartAt := row.props.screenStartAt))
              && (if s.on then
                    row.screenDuration == call.screenDuration && row.props.screenStartAt * 1000 <= s.now < row.props.screenStartAt * 1000 + 1000
                  else
                    && row.props.screenStartAt == 0
                    && (if call.props.screenStartAt > 0 then NearestSecond(row.screenDuration, s.now - call.props.screenStartAt * 1000)
                        else row.screenDuration == call.screenDuration))
  {
    ReadsCall(w, limit, c);
  }

  /** What is granted is announced once, naming the session, to exactly the users in the call; a refusal is not. */
  lemma ShareAnnounced(w: World, limit: nat, s: Step, c: ID)
    requires Inv(w, limit) && Enabled(w, limit, s) && s.Share? && IsActiveCall(w.db.calls, s.channelID, c)
    ensures var msgs := Published(w, limit, s);
            if !Granted(w.db.calls[c], s.sessionID, s.on) then msgs == []
            else
              && |msgs| == 1 && msgs[0].channelID == s.channelID
              && msgs[0].ev == (if s.on then ScreenOn(s.userID, s.sessionID) else ScreenOff(Some(s.sessionID)))
              && forall v :: Delivered(msgs[0], v) <==> InCall(SessionsOf(w.db.sessions, c), v)
  {
    ReadsCall(w, limit, c);
    var ss := SessionsOf(w.db.sessions, c);
    assert CallOK(w.db.calls[c], ss, w.joined[c], limit);
    SomeUser(ss);
    if Granted(w.db.calls[c], s.sessionID, s.on) {
      forall v { DeliveredInCall(Published(w, limit, s)[0], ss, v); }
    }
  }

  /** A new host is announced once to exactly the users in the call, and only a new one is. */
  lemma HostAnnounced(w: World, limit: nat, s: Step, c: ID)
    requires Inv(w, limit) && Enabled(w, limit, s) && s.MakeHost? && IsActiveCall(w.db.calls, s.channelID, c)
    ensures var w' := Next(w, limit, s);
            var msgs := Published(w, limit, s);
            c in w'.db.calls &&
            if w'.db.calls[c].HostID() == w.db.calls[c].HostID() then msgs == []
            else
              && |msgs| == 1 && msgs[0].channelID == s.channelID && msgs[0].ev == HostChanged(w'.db.calls[c].HostID())
              && forall v :: Delivered(msgs[0], v) <==> InCall(SessionsOf(w.db.sessions, c), v)
  {
    ReadsCall(w, limit, c);
    MakeHostOutcome(w, limit, s, c);
    var ss := SessionsOf(w.db.sessions, c);
    assert CallOK(w.db.calls[c], ss, w.joined[c], limit);
    SomeUser(ss);
    var msgs := Published(w, limit, s);
    if msgs != [] {
      forall v { DeliveredInCall(msgs[0], ss, v); }
    }
  }

  // ----- everything else is silent -----

  /** Voice and reactions go to the users that were read, whoever is in the call by then, or to the channel if none were. */
  lemma SignalAnnounced(w: World, limit: nat, s: Step)
    requires s.Emit? && Enabled(w, limit, s)
    ensures Next(w, limit, s).db == w.db
    ensures var msgs := Published(w, limit, s);
            && |msgs| == 1 && msgs[0].channelID == s.channelID
            && msgs[0].ev == (match s.signal
                              case VoiceStarts => VoiceOn(s.userID, s.sessionID)
                              case VoiceStops => VoiceOff(s.userID, s.sessionID)
                              case Reaction(at) => Reacted(s.userID, s.sessionID, at))
            && forall v :: Delivered(msgs[0], v) <==> s.read == {} || v in s.read
  {
  }

  /** The state is sent again to the one who asks, as it is. */
  lemma ResendAnnounced(w: World, limit: nat, s: Step, c: ID)
    requires Inv(w, limit) && Enabled(w, limit, s) && s.Resend? && IsActiveCall(w.db.calls, s.channelID, c)
    ensures var call := w.db.calls[c];
            Published(w, limit, s) ==
              [Msg(s.channelID, Snapshot(ClientState(Told(SessionsOf(w.db.sessions, c)), call.props.screenSharingSessionID, call.HostID())),
                   ToUser(s.userID))]
  {
    ReadsCall(w, limit, c);
    ToldIs(StateOf(w.db, c));
  }

  /** Without an active call in the channel nothing but a join does anything, or is heard of, but for late voice and reactions. */
  lemma NothingHappens(w: World, limit: nat, s: Step, ch: ID)
    requires Inv(w, limit) && Enabled(w, limit, s) && forall c :: !IsActiveCall(w.db.calls, ch, c)
    requires s.Leave? || s.MakeHost? || s.AskEnd? || s.SendMedia? || s.Share? || s.Resend? || s.Dismiss?
    requires ch == if s.Leave? then s.leave.channelID else s.channelID
    ensures Next(w, limit, s).db == w.db && Published(w, limit, s) == []
  {
    ReadFacts(w, limit, ch);
  }

  /** So does a leave of a session that is not in the call, and a join that is refused; and work on jobs, dismissals and
      cleanups say nothing of the call. */
  lemma Silent(w: World, limit: nat, s: Step)
    requires Inv(w, limit) && Enabled(w, limit, s)
    ensures s.RunJob? || s.Dismiss? || s.Clean? ==> Published(w, limit, s) == []
    ensures s.Join? && !Joined(ReadState(w.db, s.join.channelID), w.db, limit, s.join) ==>
              Next(w, limit, s).db == w.db && Published(w, limit, s) == []
    ensures forall c :: s.Leave? && IsActiveCall(w.db.calls, s.leave.channelID, c)
                        && s.leave.originalConnID !in SessionsOf(w.db.sessions, c) ==>
              Next(w, limit, s).db == w.db && Published(w, limit, s) == []
  {
    if s.Leave? {
      forall c | IsActiveCall(w.db.calls, s.leave.channelID, c) && s.leave.originalConnID !in SessionsOf(w.db.sessions, c)
        ensures Next(w, limit, s).db == w.db && Published(w, limit, s) == []
      {
        ReadsCall(w, limit, c);
      }
    }
  }

  // ----- the next host -----

  /** Who takes over from a host who leaves: the locked user if present, else one who joined no later than anyone else who
      stays; nobody if only the bot does. */
  lemma Successor(w: World, limit: nat, l: LeaveArgs, c: ID)
    requires Inv(w, limit) && Enabled(w, limit, Leave(l)) && IsActiveCall(w.db.calls, l.channelID, c)
    requires l.originalConnID in SessionsOf(w.db.sessions, c)
    ensures var w' := Next(w, limit, Leave(l));
            var left := SessionsOf(w'.db.sessions, c);
            c in w'.db.calls &&
            var host, was := w'.db.calls[c].HostID(), w.db.calls[c].HostID();
            w'.db.calls[c].endAt == 0 && host != was ==>
              || host == w.db.calls[c].props.hostLockedUserID
              || (host == NONE && forall s :: s in left ==> left[s].userID == BOT)
              || (exists s :: s in left && left[s].userID == host != BOT
                              && forall t :: t in left && left[t].userID != BOT ==> left[s].joinAt <= left[t].joinAt)
  {
    ReadsCall(w, limit, c);
    LeaveShape(w, limit, l);
    LeftHost(w.db.calls[c], SessionsOf(w.db.sessions, c) - {l.originalConnID}, l);
  }
}
