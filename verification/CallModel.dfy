/** The records the call engine keeps: calls, sessions and jobs (server/public), and the in-memory
    call state assembled from them (server/state.go).

    Identifiers are opaque tokens. Token 0 plays the empty string and token 1 the Calls bot; the
    integer order stands for the order the database sorts identifiers by. A timestamp of 0 is "not set". */
module CallModel {
  type ID = int
  const NONE: ID := 0
  const BOT: ID := 1

  datatype Option<+T> = None | Some(value: T)

  datatype Session = Session(
    id: ID, callID: ID, userID: ID, joinAt: nat, unmuted: bool, raisedHand: nat, video: bool)

  datatype Props = Props(
    hosts: seq<ID>, rtcdHost: ID, screenSharingSessionID: ID, screenStartAt: nat, nodeID: ID,
    participants: set<ID>, hostLockedUserID: ID, dismissed: map<ID, bool>)

  datatype Call = Call(
    id: ID, channelID: ID, startAt: nat, endAt: nat, createAt: nat, postID: ID, threadID: ID,
    ownerID: ID, participants: seq<ID>, screenDuration: int, props: Props)
  {
    function HostID(): ID {
      if props.hosts == [] then NONE else props.hosts[0]
    }
  }

  datatype JobType = Recording | Transcribing | Captioning

  datatype Job = Job(
    id: ID, callID: ID, jtype: JobType, creatorID: ID, initAt: nat, startAt: nat, endAt: nat,
    jobID: ID, botConnID: ID, err: string)

  datatype Jobs = Jobs(recording: Option<Job>, transcription: Option<Job>, liveCaptions: Option<Job>)

  datatype CallState = CallState(call: Call, sessions: map<ID, Session>, jobs: Jobs)

  predicate Running(j: Option<Job>) {
    j.Some? && j.value.endAt == 0
  }

  ghost predicate InCall(sessions: map<ID, Session>, userID: ID) {
    exists s :: s in sessions && sessions[s].userID == userID
  }

  ghost predicate SomeoneInCall(sessions: map<ID, Session>) {
    exists s :: s in sessions && sessions[s].userID != BOT
  }

  function UsersOf(sessions: map<ID, Session>): set<ID> {
    set s | s in sessions :: sessions[s].userID
  }

  /** s lists every element of xs exactly once: what ranging over a Go map yields. */
  ghost predicate Enumerates(s: seq<ID>, xs: set<ID>) {
    && (forall x :: x in s <==> x in xs)
    && (forall i, j :: 0 <= i < j < |s| ==> s[i] != s[j])
  }

  /** The user getHostID may name: the locked user if present, else the current host if present, else
      a user whose session joined first among the non-bot sessions, else nobody. */
  ghost predicate IsNextHost(call: Call, sessions: map<ID, Session>, host: ID) {
    if call.props.hostLockedUserID != NONE && InCall(sessions, call.props.hostLockedUserID) then
      host == call.props.hostLockedUserID
    else if InCall(sessions, call.HostID()) then
      host == call.HostID()
    else if SomeoneInCall(sessions) then
      exists s :: JoinedFirst(sessions, s) && sessions[s].userID == host
    else
      host == NONE
  }

  ghost predicate JoinedFirst(sessions: map<ID, Session>, s: ID) {
    && s in sessions && sessions[s].userID != BOT
    && forall t :: t in sessions && sessions[t].userID != BOT ==> sessions[s].joinAt <= sessions[t].joinAt
  }

  /** Messages published to clients about a call. `sessionID` is absent from the screen-off event that
      the leave path publishes. */
  datatype Event =
    | HostChanged(hostID: ID)
    | CallStart(callID: ID, hostID: ID)
    | UserJoined(userID: ID, sessionID: ID)
    | UserLeft(userID: ID, sessionID: ID)
    | UserMuted(userID: ID, sessionID: ID)
    | UserUnmuted(userID: ID, sessionID: ID)
    | RaiseHand(userID: ID, sessionID: ID, raisedHand: nat)
    | UnraiseHand(userID: ID, sessionID: ID, raisedHand: nat)
    | VideoOn(userID: ID, sessionID: ID)
    | VideoOff(userID: ID, sessionID: ID)
    | VoiceOn(userID: ID, sessionID: ID)
    | VoiceOff(userID: ID, sessionID: ID)
    | Reacted(userID: ID, sessionID: ID, at: nat)
    | ScreenOn(userID: ID, sessionID: ID)
    | ScreenOff(screenSession: Option<ID>)
    | CallEnd
    | Snapshot(view: ClientState)

  datatype Audience = ToChannel | ToUsers(users: set<ID>) | ToUser(userID: ID)

  datatype Msg = Msg(channelID: ID, ev: Event, to: Audience)

  /** The part of a session a client is told about (UserStateClient). */
  datatype SessionView = SessionView(sessionID: ID, userID: ID, unmuted: bool, raisedHand: nat, video: bool)

  /** CallStateClient, restricted to sessions, screen sharer and host. */
  datatype ClientState = ClientState(sessions: map<ID, SessionView>, screenSharingSessionID: ID, hostID: ID)

  lemma Regroup<T>(a: seq<T>, b: seq<T>, c: seq<T>)
    ensures a + (b + c) == (a + b) + c
  {
  }
}
