/** Joining, leaving and acting in a call (server/session.go, server/websocket.go, server/host_controls.go,
    server/state.go), as functions of the call state read under the call lock and of the database. */
module CallSessions {
  import opened CallModel
  import opened CallStore
  import opened CallJobs

  /** A broadcast to a channel, narrowed to the call's participants when there are any. */
  function Publish(channelID: ID, ev: Event, users: set<ID>): Msg {
    Msg(channelID, ev, if users == {} then ToChannel else ToUsers(users))
  }

  // ----- joining -----

  datatype RtcdAnswer = NoManager | NoHost | Host(ip: ID)

  /** A join request. `allowed` is the answer of userCanStartOrJoin, `rtcd` that of the RTCD manager, `pick` the
      user getHostID settles on, `rtcOK` whether the RTC session could be set up; newCallID, postID and threadID
      are what a new call would be given. */
  datatype JoinArgs = JoinArgs(
    channelID: ID, userID: ID, connID: ID, jobID: ID, now: nat, allowed: bool, rtcd: RtcdAnswer, nodeID: ID,
    newCallID: ID, pick: ID, postID: ID, threadID: ID, rtcOK: bool)

  datatype Refusal = NotAllowed | NoRTCDHost | CallEnded | AlreadyConnected | LimitReached | NoJobToJoin

  datatype AddResult = Added(state: CallState, db: Store, msgs: seq<Msg>) | Refused(reason: Refusal)

  function NewCall(a: JoinArgs): CallState {
    CallState(
      Call(a.newCallID, a.channelID, a.now, 0, a.now, NONE, NONE, a.userID, [], 0,
           Props([], if a.rtcd.Host? then a.rtcd.ip else NONE, NONE, 0, a.nodeID, {}, NONE, map[])),
      map[], Jobs(None, None, None))
  }

  function BaseState(st: Option<CallState>, a: JoinArgs): CallState {
    if st.Some? then st.value else NewCall(a)
  }

  function NewSession(callID: ID, a: JoinArgs): Session {
    Session(a.connID, callID, a.userID, a.now, false, 0, false)
  }

  /** joinAllowed: a limit of 0 is no limit. */
  predicate JoinAllowed(sessions: map<ID, Session>, limit: nat) {
    limit == 0 || |sessions| < limit
  }

  function AddUserSession(st: Option<CallState>, db: Store, limit: nat, a: JoinArgs): AddResult {
    if st.None? && !a.allowed then Refused(NotAllowed)
    else if st.None? && a.rtcd.NoHost? then Refused(NoRTCDHost)
    else
      var base := BaseState(st, a);
      if base.call.endAt > 0 then Refused(CallEnded)
      else if a.connID in base.sessions then Refused(AlreadyConnected)
      else if !JoinAllowed(base.sessions, limit) then Refused(LimitReached)
      else
        var jd := JoinJobs(base, db, a);
        if jd.None? then Refused(NoJobToJoin) else Admit(base, db, jd.value, a)
  }

  /** The bot needs a job to join for. */
  function JoinJobs(base: CallState, db: Store, a: JoinArgs): Option<JobsDb> {
    if a.userID == BOT then BotJoins(base.jobs, db.jobs, a.jobID, a.connID) else Some(JobsDb(base.jobs, db.jobs))
  }

  function AdmittedCall(call: Call, a: JoinArgs): Call {
    call.(props := call.props.(
      hosts := if a.pick != call.HostID() then [a.pick] else call.props.hosts,
      participants := if a.userID != BOT then call.props.participants + {a.userID} else call.props.participants))
  }

  function Admit(base: CallState, db: Store, jd: JobsDb, a: JoinArgs): AddResult {
    var s := NewSession(base.call.id, a);
    var sessions := base.sessions[a.connID := s];
    var call := AdmittedCall(base.call, a);
    var calls := if |sessions| == 1 then InsertCall(db.calls, call) else UpdateCall(db.calls, call);
    Added(CallState(call, sessions, jd.jobs),
          Store(calls, db.sessions[a.connID := s], jd.rows),
          if a.pick != base.call.HostID() then [Publish(a.channelID, HostChanged(a.pick), UsersOf(sessions))] else [])
  }

  /** The host a join settles on is one getHostID may name, with the new session counted in. */
  ghost predicate HostChosen(base: CallState, a: JoinArgs) {
    IsNextHost(base.call, base.sessions[a.connID := NewSession(base.call.id, a)], a.pick)
  }

  ghost predicate JoinChoice(st: Option<CallState>, a: JoinArgs) {
    HostChosen(BaseState(st, a), a)
  }

  datatype JoinOutcome = JoinOutcome(state: Option<CallState>, db: Store, msgs: seq<Msg>)

  function StartMsgs(st: CallState, a: JoinArgs): seq<Msg> {
    if |st.sessions| == 1 then [Msg(a.channelID, CallStart(st.call.id, st.call.HostID()), ToChannel)] else []
  }

  function WelcomeMsgs(st: CallState, a: JoinArgs): seq<Msg> {
    if !a.rtcOK then []
    else
      (if a.userID != BOT then [Msg(a.channelID, UserJoined(a.userID, a.connID), ToChannel)] else [])
      + [Msg(a.channelID, Snapshot(GetClientState(st)), ToUser(a.userID))]
  }

  /** addSessionToCall inside handleJoin: the first session of a call also posts and announces it. */
  function JoinCall(st: Option<CallState>, db: Store, limit: nat, a: JoinArgs): JoinOutcome {
    match AddUserSession(st, db, limit, a)
    case Refused(_) => JoinOutcome(st, db, [])
    case Added(s1, db1, msgs) =>
      var call2 := if |s1.sessions| == 1 then s1.call.(postID := a.postID, threadID := a.threadID) else s1.call;
      var s2 := s1.(call := call2);
      var db2 := if |s1.sessions| == 1 then db1.(calls := UpdateCall(db1.calls, call2)) else db1;
      JoinOutcome(Some(s2), db2, msgs + StartMsgs(s2, a) + WelcomeMsgs(s2, a))
  }

  predicate Joined(st: Option<CallState>, db: Store, limit: nat, a: JoinArgs) {
    AddUserSession(st, db, limit, a).Added?
  }

  // ----- what clients are told -----

  function ViewOf(s: Session): SessionView {
    SessionView(s.id, s.userID, s.unmuted, s.raisedHand, s.video)
  }

  /** getStates: the bot's sessions are hidden. */
  function GetStates(sessions: map<ID, Session>): map<ID, SessionView> {
    map s | s in sessions && sessions[s].userID != BOT :: ViewOf(sessions[s])
  }

  function GetClientState(st: CallState): ClientState {
    ClientState(GetStates(st.sessions), st.call.props.screenSharingSessionID, st.call.HostID())
  }

  // ----- leaving -----

  /** A leave request; `pick` as for a join, `keys` the order the participants map is listed in. */
  datatype LeaveArgs = LeaveArgs(channelID: ID, userID: ID, originalConnID: ID, connID: ID, now: nat, pick: ID, keys: seq<ID>)

  datatype LeaveOutcome = LeaveOutcome(state: Option<CallState>, db: Store, msgs: seq<Msg>)

  function SecondsSince(startAt: nat, nowMs: nat): int {
    (nowMs - startAt * 1000 + 500) / 1000
  }

  /** setCallEnded. */
  function SetCallEnded(call: Call, now: nat, keys: seq<ID>): Call {
    call.(endAt := now, participants := keys,
          props := call.props.(rtcdHost := NONE, dismissed := map[], nodeID := NONE, hosts := [], participants := {}))
  }

  function StopSharing(call: Call, sessionID: ID, now: nat): Call {
    if call.props.screenSharingSessionID != sessionID then call
    else call.(
      screenDuration := if call.props.screenStartAt > 0 then call.screenDuration + SecondsSince(call.props.screenStartAt, now) else call.screenDuration,
      props := call.props.(screenSharingSessionID := NONE, screenStartAt := 0))
  }

  predicate HostLeaves(call: Call, sessionsLeft: map<ID, Session>, a: LeaveArgs) {
    call.HostID() == a.userID && |sessionsLeft| > 0 && a.pick != a.userID
  }

  function RehostedCall(call: Call, sessionsLeft: map<ID, Session>, a: LeaveArgs): Call {
    if HostLeaves(call, sessionsLeft, a) then
      call.(props := call.props.(hosts := if a.pick == NONE then [] else [a.pick]))
    else call
  }

  function EndedCall(call: Call, sessionsLeft: map<ID, Session>, a: LeaveArgs): Call {
    if |sessionsLeft| == 0 then
      SetCallEnded(
        call.(screenDuration := if call.props.screenStartAt > 0 then call.screenDuration + SecondsSince(call.props.screenStartAt, a.now) else call.screenDuration),
        a.now, a.keys)
    else call
  }

  function CallAfterLeave(call: Call, sessionsLeft: map<ID, Session>, a: LeaveArgs): Call {
    EndedCall(RehostedCall(StopSharing(call, a.originalConnID, a.now), sessionsLeft, a), sessionsLeft, a)
  }

  function MediaOffMsgs(st: CallState, us: Session, a: LeaveArgs, users: set<ID>): seq<Msg> {
    (if st.call.props.screenSharingSessionID == a.originalConnID then [Publish(a.channelID, ScreenOff(None), users)] else [])
    + (if us.video then [Publish(a.channelID, VideoOff(a.userID, a.originalConnID), users)] else [])
  }

  function GoodbyeMsgs(a: LeaveArgs): seq<Msg> {
    if a.userID != BOT then [Msg(a.channelID, UserLeft(a.userID, a.originalConnID), ToChannel)] else []
  }

  function RehostMsgs(call: Call, left: map<ID, Session>, a: LeaveArgs, users: set<ID>): seq<Msg> {
    if HostLeaves(call, left, a) then [Publish(a.channelID, HostChanged(a.pick), users)] else []
  }

  /** The screen-off message of a leaving sharer names no session; a leaving bot is not announced. */
  function LeaveMsgs(st: CallState, us: Session, left: map<ID, Session>, a: LeaveArgs): seq<Msg> {
    var users := UsersOf(left);
    MediaOffMsgs(st, us, a, users) + GoodbyeMsgs(a) + RehostMsgs(st.call, left, a, users)
  }

  /** removeUserSession: no state or no such session is an error that changes nothing. */
  function RemoveUserSession(st: Option<CallState>, db: Store, a: LeaveArgs): LeaveOutcome
    requires a.now > 0
  {
    if st.None? || a.originalConnID !in st.value.sessions then LeaveOutcome(st, db, [])
    else
      var us := st.value.sessions[a.originalConnID];
      var left := st.value.sessions - {a.originalConnID};
      var jd := BotLeaves(st.value.jobs, db.jobs, a.originalConnID, a.connID, a.now);
      var call := CallAfterLeave(st.value.call, left, a);
      LeaveOutcome(Some(CallState(call, left, jd.jobs)),
                   Store(UpdateCall(db.calls, call), db.sessions - {a.originalConnID}, jd.rows),
                   LeaveMsgs(st.value, us, left, a))
  }

  /** The next host is asked for only when the host leaves others behind, the participants only when the call ends. */
  ghost predicate LeaveChoices(st: CallState, a: LeaveArgs) {
    var left := st.sessions - {a.originalConnID};
    && (st.call.HostID() == a.userID && |left| > 0 ==> IsNextHost(st.call, left, a.pick))
    && (|left| == 0 ==> Enumerates(a.keys, st.call.props.participants))
  }

  predicate Leaves(st: Option<CallState>, a: LeaveArgs) {
    st.Some? && a.originalConnID in st.value.sessions
  }

  // ----- host controls -----

  datatype Outcome = Outcome(db: Store, msgs: seq<Msg>)

  predicate MayControl(st: CallState, requesterID: ID, isAdmin: bool) {
    requesterID == st.call.HostID() || isAdmin
  }

  /** changeHost. Naming the current host again only sets the lock, and only when there is none. */
  ghost function ChangeHost(st: Option<CallState>, db: Store, channelID: ID, requesterID: ID, isAdmin: bool, newHostID: ID): Outcome {
    if st.None? || !MayControl(st.value, requesterID, isAdmin) || newHostID == BOT then Outcome(db, [])
    else
      var call := st.value.call;
      if call.HostID() == newHostID then
        if call.props.hostLockedUserID == NONE then
          Outcome(db.(calls := UpdateCall(db.calls, call.(props := call.props.(hostLockedUserID := newHostID)))), [])
        else Outcome(db, [])
      else if !InCall(st.value.sessions, newHostID) then Outcome(db, [])
      else
        Outcome(db.(calls := UpdateCall(db.calls, call.(props := call.props.(hosts := [newHostID], hostLockedUserID := newHostID)))),
                [Publish(channelID, HostChanged(newHostID), UsersOf(st.value.sessions))])
  }

  /** hostEnd, under the lock: clients are asked to disconnect. The record is cleaned up seconds later, if need be. */
  function HostEnd(st: Option<CallState>, channelID: ID, requesterID: ID, isAdmin: bool): seq<Msg> {
    if st.None? || !MayControl(st.value, requesterID, isAdmin) then [] else [Msg(channelID, CallEnd, ToChannel)]
  }

  // ----- media -----

  datatype Media = Mute | Unmute | Raise | Unraise | CamOn | CamOff

  function WithMedia(s: Session, m: Media, now: nat): Session {
    match m
    case Mute => s.(unmuted := false)
    case Unmute => s.(unmuted := true)
    case Raise => s.(raisedHand := now)
    case Unraise => s.(raisedHand := 0)
    case CamOn => s.(video := true)
    case CamOff => s.(video := false)
  }

  function MediaEvent(userID: ID, sessionID: ID, m: Media, now: nat): Event {
    match m
    case Mute => UserMuted(userID, sessionID)
    case Unmute => UserUnmuted(userID, sessionID)
    case Raise => RaiseHand(userID, sessionID, now)
    case Unraise => UnraiseHand(userID, sessionID, 0)
    case CamOn => VideoOn(userID, sessionID)
    case CamOff => VideoOff(userID, sessionID)
  }

  /** The mute, hand and video cases of handleClientMsg. */
  function HandleMedia(st: Option<CallState>, db: Store, channelID: ID, userID: ID, sessionID: ID, m: Media, now: nat): Outcome {
    if st.None? || sessionID !in st.value.sessions then Outcome(db, [])
    else
      Outcome(db.(sessions := UpdateSession(db.sessions, WithMedia(st.value.sessions[sessionID], m, now))),
              [Publish(channelID, MediaEvent(userID, sessionID, m, now), UsersOf(st.value.sessions))])
  }

  /** handleClientMessageTypeScreen. Whether the session is in the call is not checked. */
  function HandleScreen(st: Option<CallState>, db: Store, channelID: ID, userID: ID, sessionID: ID, on: bool, now: nat): Outcome {
    if st.None? then Outcome(db, [])
    else
      var call := st.value.call;
      var p := call.props;
      if on then
        if p.screenSharingSessionID != NONE then Outcome(db, [])
        else
          Outcome(db.(calls := UpdateCall(db.calls, call.(props := p.(screenSharingSessionID := sessionID, screenStartAt := now / 1000)))),
                  [Publish(channelID, ScreenOn(userID, sessionID), UsersOf(st.value.sessions))])
      else if p.screenSharingSessionID != sessionID then Outcome(db, [])
      else
        Outcome(db.(calls := UpdateCall(db.calls, call.(
                  screenDuration := if p.screenStartAt > 0 then SecondsSince(p.screenStartAt, now) else call.screenDuration,
                  props := p.(screenSharingSessionID := NONE, screenStartAt := 0)))),
                [Publish(channelID, ScreenOff(Some(sessionID)), UsersOf(st.value.sessions))])
  }

  // ----- what is published without the lock -----

  /** What the RTC server reports about a session's voice, and a reaction. */
  datatype Signal = VoiceStarts | VoiceStops | Reaction(at: nat)

  function SignalEvent(userID: ID, sessionID: ID, x: Signal): Event {
    match x
    case VoiceStarts => VoiceOn(userID, sessionID)
    case VoiceStops => VoiceOff(userID, sessionID)
    case Reaction(at) => Reacted(userID, sessionID, at)
  }

  /** handleCallStateRequest: the snapshot again, for a client that asks. */
  function ResendState(st: Option<CallState>, channelID: ID, userID: ID): seq<Msg> {
    if st.None? then [] else [Msg(channelID, Snapshot(GetClientState(st.value)), ToUser(userID))]
  }

  // ----- dismissing the notification -----

  /** handleDismissNotification. Its message goes to the one user, about nothing that is kept here. */
  function DismissCall(st: Option<CallState>, db: Store, userID: ID): Store {
    if st.None? then db
    else
      var p := st.value.call.props;
      db.(calls := UpdateCall(db.calls, st.value.call.(props := p.(dismissed := p.dismissed[userID := true]))))
  }

  // ----- cleaning up -----

  /** cleanCallState, atomic and on a fresh record as its comment asks. */
  ghost function CleanCall(db: Store, callID: ID, now: nat, keys: seq<ID>): Store {
    if callID !in db.calls then db
    else
      var call := db.calls[callID];
      Store(UpdateCall(db.calls, if call.endAt == 0 then SetCallEnded(call, now, keys) else call),
            SessionsOfOthers(db.sessions, callID),
            EndAll(JobsOf(db.jobs, callID), db.jobs, now))
  }
}
