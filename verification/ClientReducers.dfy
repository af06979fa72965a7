/** The client's picture of a call (webapp/src/reducers.ts, webapp/src/actions.ts): the sessions, hosts and
    screen-sharing reducers, and the websocket handlers that dispatch to them. State is keyed by channel. */
module ClientReducers {
  import opened CallModel

  /** A session entry. Spreading an entry that is not there leaves the other fields undefined. */
  datatype Entry = Entry(
    sessionID: Option<ID>, userID: Option<ID>, unmuted: Option<bool>, voice: Option<bool>, video: Option<bool>, raisedHand: Option<nat>,
    reaction: Option<nat>)

  const UNDEFINED := Entry(None, None, None, None, None, None, None)

  type SessionEntries = map<ID, Entry>

  datatype Client = Client(sessions: map<ID, SessionEntries>, hosts: map<ID, ID>, screens: map<ID, ID>)

  datatype Action =
    | Uninit
    | EndOfCall(channelID: ID)
    | Arrived(channelID: ID, userID: ID, sessionID: ID)
    | Gone(channelID: ID, userID: ID, sessionID: ID)
    | UsersStates(channelID: ID, states: SessionEntries)
    | SetUnmuted(channelID: ID, userID: ID, sessionID: ID, unmuted: bool)
    | SetVoice(channelID: ID, userID: ID, sessionID: ID, voice: bool)
    | SetHand(channelID: ID, userID: ID, sessionID: ID, raisedHand: nat)
    | SetVideo(channelID: ID, userID: ID, sessionID: ID, video: bool)
    | SetReaction(channelID: ID, userID: ID, sessionID: ID, at: nat)
    | ReactionOver(channelID: ID, sessionID: ID, at: nat)
    | SetHost(channelID: ID, hostID: ID)
    | SetSharing(channelID: ID, sessionID: ID)
    | ClearSharing(channelID: ID, sharer: Option<ID>)

  function FreshEntry(sessionID: ID, userID: ID): Entry {
    Entry(Some(sessionID), Some(userID), Some(false), Some(false), Some(false), Some(0), None)
  }

  function EntryIn(state: map<ID, SessionEntries>, channelID: ID, sessionID: ID): Entry {
    if channelID in state && sessionID in state[channelID] then state[channelID][sessionID] else UNDEFINED
  }

  /** Without an entry for the channel a whole session is written, else only one field of it. */
  function WithEntry(state: map<ID, SessionEntries>, channelID: ID, sessionID: ID, whole: Entry, patched: Entry): map<ID, SessionEntries> {
    if channelID !in state then state[channelID := map[sessionID := whole]]
    else state[channelID := state[channelID][sessionID := patched]]
  }

  /** The sessions reducer. */
  function SessionsReducer(state: map<ID, SessionEntries>, a: Action): map<ID, SessionEntries> {
    match a
    case Uninit => map[]
    case EndOfCall(ch) => state - {ch}
    case Arrived(ch, u, s) => state[ch := (if ch in state then state[ch] else map[])[s := FreshEntry(s, u)]]
    case Gone(ch, _, s) => if ch in state then state[ch := state[ch] - {s}] else state
    case UsersStates(ch, states) => state[ch := states]
    case SetUnmuted(ch, u, s, on) =>
      WithEntry(state, ch, s, FreshEntry(s, u).(unmuted := Some(on)), EntryIn(state, ch, s).(unmuted := Some(on)))
    case SetVoice(ch, u, s, on) =>
      WithEntry(state, ch, s, FreshEntry(s, u).(voice := Some(on)), EntryIn(state, ch, s).(voice := Some(on)))
    case SetHand(ch, u, s, hand) =>
      WithEntry(state, ch, s, FreshEntry(s, u).(raisedHand := Some(hand)), EntryIn(state, ch, s).(raisedHand := Some(hand)))
    case SetVideo(ch, u, s, on) =>
      // With no entry for the channel, turning video off yields an unmuted session.
      WithEntry(state, ch, s, FreshEntry(s, u).(video := Some(on), unmuted := Some(!on)), EntryIn(state, ch, s).(video := Some(on)))
    case SetReaction(ch, u, s, at) =>
      WithEntry(state, ch, s, FreshEntry(s, u).(reaction := Some(at)), EntryIn(state, ch, s).(reaction := Some(at)))
    case ReactionOver(ch, s, at) =>
      // The timer of a reaction clears it unless a later one has taken its place.
      var stored := EntryIn(state, ch, s).reaction;
      if stored.None? || stored.value > at then state
      else state[ch := state[ch][s := state[ch][s].(reaction := None)]]
    case _ => state
  }

  /** The hosts reducer. */
  function HostsReducer(state: map<ID, ID>, a: Action): map<ID, ID> {
    match a
    case Uninit => map[]
    case SetHost(ch, h) => state[ch := h]
    case _ => state
  }

  function Lookup(state: map<ID, ID>, channelID: ID): Option<ID> {
    if channelID in state then Some(state[channelID]) else None
  }

  /** The screenSharingIDs reducer: an event clears the sharer only if it names it; the end of a call names nobody. */
  function ScreensReducer(state: map<ID, ID>, a: Action): map<ID, ID> {
    match a
    case Uninit => map[]
    case SetSharing(ch, s) => state[ch := s]
    case Gone(ch, _, s) => if Lookup(state, ch) != Some(s) then state else state[ch := NONE]
    case EndOfCall(ch) => if Lookup(state, ch) != None then state else state[ch := NONE]
    case ClearSharing(ch, s) => if Lookup(state, ch) != s then state else state[ch := NONE]
    case _ => state
  }

  function Dispatch(cl: Client, a: Action): Client {
    Client(SessionsReducer(cl.sessions, a), HostsReducer(cl.hosts, a), ScreensReducer(cl.screens, a))
  }

  /** getSessionsMapFromSessions: what the snapshot says about a session, which is nothing about voice or reactions. */
  function EntryOf(v: SessionView): Entry {
    Entry(Some(v.sessionID), Some(v.userID), Some(v.unmuted), None, Some(v.video), Some(v.raisedHand), None)
  }

  function EntriesOf(sessions: map<ID, SessionView>): SessionEntries {
    map s | s in sessions :: EntryOf(sessions[s])
  }

  /** loadCallState. */
  function LoadCallState(cl: Client, channelID: ID, v: ClientState): Client {
    Dispatch(Dispatch(Dispatch(cl, SetSharing(channelID, v.screenSharingSessionID)), SetHost(channelID, v.hostID)),
             UsersStates(channelID, EntriesOf(v.sessions)))
  }

  /** userLeft: when no session is left the client takes the call for ended. */
  function HandleUserLeft(cl: Client, channelID: ID, userID: ID, sessionID: ID): Client {
    var cl1 := Dispatch(cl, Gone(channelID, userID, sessionID));
    if channelID !in cl1.sessions || |cl1.sessions[channelID]| == 0 then Dispatch(cl1, EndOfCall(channelID)) else cl1
  }

  /** Most messages are one action each. A reaction is shown by clients connected to the channel's call, which is what the
      properties are about; other clients drop it. */
  function ActionOf(m: Msg): Action
    requires !m.ev.UserLeft? && !m.ev.Snapshot?
  {
    var ch := m.channelID;
    match m.ev
    case HostChanged(h) => SetHost(ch, h)
    case CallStart(_, h) => SetHost(ch, h)
    case UserJoined(u, s) => Arrived(ch, u, s)
    case UserMuted(u, s) => SetUnmuted(ch, u, s, false)
    case UserUnmuted(u, s) => SetUnmuted(ch, u, s, true)
    case RaiseHand(u, s, hand) => SetHand(ch, u, s, hand)
    case UnraiseHand(u, s, hand) => SetHand(ch, u, s, hand)
    case VideoOn(u, s) => SetVideo(ch, u, s, true)
    case VideoOff(u, s) => SetVideo(ch, u, s, false)
    case VoiceOn(u, s) => SetVoice(ch, u, s, true)
    case VoiceOff(u, s) => SetVoice(ch, u, s, false)
    case Reacted(u, s, at) => SetReaction(ch, u, s, at)
    case ScreenOn(_, s) => SetSharing(ch, s)
    case ScreenOff(s) => ClearSharing(ch, s)
    case CallEnd => EndOfCall(ch)
  }

  function Handle(cl: Client, m: Msg): Client {
    match m.ev
    case UserLeft(u, s) => HandleUserLeft(cl, m.channelID, u, s)
    case Snapshot(v) => LoadCallState(cl, m.channelID, v)
    case _ => Dispatch(cl, ActionOf(m))
  }

  predicate Delivered(m: Msg, userID: ID) {
    match m.to
    case ToChannel => true
    case ToUsers(us) => userID in us
    case ToUser(u) => u == userID
  }

  /** A client of the user, reading the channel's messages in order. */
  function Receive(cl: Client, userID: ID, msgs: seq<Msg>): Client
    decreases |msgs|
  {
    if msgs == [] then cl
    else Receive(if Delivered(msgs[0], userID) then Handle(cl, msgs[0]) else cl, userID, msgs[1..])
  }

  lemma {:induction false} ReceiveConcat(cl: Client, userID: ID, a: seq<Msg>, b: seq<Msg>)
    ensures Receive(cl, userID, a + b) == Receive(Receive(cl, userID, a), userID, b)
    decreases |a|
  {
    if a == [] {
      assert a + b == b;
    } else {
      assert (a + b)[1..] == a[1..] + b;
      ReceiveConcat(if Delivered(a[0], userID) then Handle(cl, a[0]) else cl, userID, a[1..], b);
    }
  }

  lemma ReceiveOne(cl: Client, userID: ID, m: Msg)
    ensures Receive(cl, userID, [m]) == if Delivered(m, userID) then Handle(cl, m) else cl
  {
  }

  // ----- agreement with the server -----

  ghost predicate Shows(e: Entry, v: SessionView) {
    && e.sessionID == Some(v.sessionID) && e.userID == Some(v.userID)
    && e.unmuted == Some(v.unmuted) && e.raisedHand == Some(v.raisedHand) && e.video == Some(v.video)
  }

  /** The client shows exactly the sessions, host and sharer of a server view. */
  ghost predicate InSync(cl: Client, channelID: ID, v: ClientState) {
    && channelID in cl.sessions
    && (forall s :: s in cl.sessions[channelID] <==> s in v.sessions)
    && (forall s :: s in v.sessions ==> Shows(cl.sessions[channelID][s], v.sessions[s]))
    && Lookup(cl.hosts, channelID) == Some(v.hostID)
    && (Lookup(cl.screens, channelID) == Some(v.screenSharingSessionID)
        || (Lookup(cl.screens, channelID) == None && v.screenSharingSessionID == NONE))
  }

  /** Loading a snapshot brings a client in step with it, whatever it showed before. */
  lemma SnapshotSyncs(cl: Client, channelID: ID, v: ClientState)
    ensures InSync(LoadCallState(cl, channelID, v), channelID, v)
  {
  }

  ghost predicate SameChannel(cl: Client, cl': Client, channelID: ID) {
    && (channelID in cl.sessions <==> channelID in cl'.sessions)
    && (channelID in cl.sessions ==> cl'.sessions[channelID] == cl.sessions[channelID])
    && Lookup(cl'.hosts, channelID) == Lookup(cl.hosts, channelID)
    && Lookup(cl'.screens, channelID) == Lookup(cl.screens, channelID)
  }

  lemma DispatchFrame(cl: Client, a: Action, channelID: ID)
    requires !a.Uninit? && a.channelID != channelID
    ensures SameChannel(cl, Dispatch(cl, a), channelID)
  {
  }

  lemma LoadFrame(cl: Client, ch: ID, v: ClientState, channelID: ID)
    requires ch != channelID
    ensures SameChannel(cl, LoadCallState(cl, ch, v), channelID)
  {
    var c1 := Dispatch(cl, SetSharing(ch, v.screenSharingSessionID));
    var c2 := Dispatch(c1, SetHost(ch, v.hostID));
    DispatchFrame(cl, SetSharing(ch, v.screenSharingSessionID), channelID);
    DispatchFrame(c1, SetHost(ch, v.hostID), channelID);
    DispatchFrame(c2, UsersStates(ch, EntriesOf(v.sessions)), channelID);
  }

  lemma LeftFrame(cl: Client, ch: ID, u: ID, s: ID, channelID: ID)
    requires ch != channelID
    ensures SameChannel(cl, HandleUserLeft(cl, ch, u, s), channelID)
  {
    DispatchFrame(cl, Gone(ch, u, s), channelID);
    DispatchFrame(Dispatch(cl, Gone(ch, u, s)), EndOfCall(ch), channelID);
  }

  lemma HandleFrame(cl: Client, m: Msg, channelID: ID)
    requires m.channelID != channelID
    ensures SameChannel(cl, Handle(cl, m), channelID)
  {
    match m.ev
    case UserLeft(u, s) => LeftFrame(cl, m.channelID, u, s, channelID);
    case Snapshot(v) => LoadFrame(cl, m.channelID, v, channelID);
    case _ => DispatchFrame(cl, ActionOf(m), channelID);
  }

  /** Messages about other channels leave what is shown for this one alone. */
  lemma {:induction false} ReceiveFrame(cl: Client, userID: ID, msgs: seq<Msg>, channelID: ID)
    requires forall i :: 0 <= i < |msgs| ==> msgs[i].channelID != channelID
    ensures SameChannel(cl, Receive(cl, userID, msgs), channelID)
    decreases |msgs|
  {
    if msgs != [] {
      HandleFrame(cl, msgs[0], channelID);
      ReceiveFrame(if Delivered(msgs[0], userID) then Handle(cl, msgs[0]) else cl, userID, msgs[1..], channelID);
    }
  }

  /** What a client shows of a session after a voice or a reaction message about it; of everything else, what it showed. */
  lemma SignalShown(cl: Client, ch: ID, u: ID, s: ID, at: nat, to: Audience)
    requires ch in cl.sessions && s in cl.sessions[ch]
    ensures var e := cl.sessions[ch][s];
            && Handle(cl, Msg(ch, VoiceOn(u, s), to)) == cl.(sessions := cl.sessions[ch := cl.sessions[ch][s := e.(voice := Some(true))]])
            && Handle(cl, Msg(ch, VoiceOff(u, s), to)) == cl.(sessions := cl.sessions[ch := cl.sessions[ch][s := e.(voice := Some(false))]])
            && Handle(cl, Msg(ch, Reacted(u, s, at), to)) == cl.(sessions := cl.sessions[ch := cl.sessions[ch][s := e.(reaction := Some(at))]])
  {
  }

  /** A reaction's timer clears it, unless a later reaction has taken its place, and nothing else. */
  lemma ReactionCleared(cl: Client, ch: ID, s: ID, at: nat)
    requires ch in cl.sessions && s in cl.sessions[ch]
    ensures var e := cl.sessions[ch][s];
            Dispatch(cl, ReactionOver(ch, s, at)) ==
            if e.reaction.Some? && e.reaction.value <= at then cl.(sessions := cl.sessions[ch := cl.sessions[ch][s := e.(reaction := None)]])
            else cl
  {
  }

  // ----- the timers of reactions -----

  /** Equal but for the reactions shown. */
  ghost predicate SameEntries(a: SessionEntries, b: SessionEntries) {
    && a.Keys == b.Keys && (forall s :: s in a <==> s in b)
    && forall s :: s in a ==> a[s].(reaction := None) == b[s].(reaction := None)
  }

  ghost predicate SameShown(a: Client, b: Client) {
    a.hosts == b.hosts && a.screens == b.screens && SameSessions(a.sessions, b.sessions)
  }

  lemma SameInSync(a: Client, b: Client, channelID: ID, v: ClientState)
    requires SameShown(a, b)
    ensures InSync(a, channelID, v) <==> InSync(b, channelID, v)
  {
    if channelID in a.sessions {
      assert SameEntries(a.sessions[channelID], b.sessions[channelID]);
      forall s | s in a.sessions[channelID] && s in v.sessions
        ensures Shows(a.sessions[channelID][s], v.sessions[s]) <==> Shows(b.sessions[channelID][s], v.sessions[s])
      {
        assert a.sessions[channelID][s].(reaction := None) == b.sessions[channelID][s].(reaction := None);
      }
    }
  }

  ghost predicate SameSessions(a: map<ID, SessionEntries>, b: map<ID, SessionEntries>) {
    && (forall ch :: ch in a <==> ch in b)
    && forall ch :: ch in a ==> SameEntries(a[ch], b[ch])
  }

  lemma WithEntrySame(a: map<ID, SessionEntries>, b: map<ID, SessionEntries>, ch: ID, s: ID, whole: Entry, p: Entry, q: Entry)
    requires SameSessions(a, b) && p.(reaction := None) == q.(reaction := None)
    ensures SameSessions(WithEntry(a, ch, s, whole, p), WithEntry(b, ch, s, whole, q))
  {
  }

  predicate IsPatch(x: Action) {
    x.SetUnmuted? || x.SetVoice? || x.SetHand? || x.SetVideo? || x.SetReaction?
  }

  lemma PatchSame(a: map<ID, SessionEntries>, b: map<ID, SessionEntries>, x: Action)
    requires SameSessions(a, b) && IsPatch(x)
    ensures SameSessions(SessionsReducer(a, x), SessionsReducer(b, x))
  {
    match x
    case SetUnmuted(ch, u, s, on) =>
      WithEntrySame(a, b, ch, s, FreshEntry(s, u).(unmuted := Some(on)), EntryIn(a, ch, s).(unmuted := Some(on)), EntryIn(b, ch, s).(unmuted := Some(on)));
    case SetVoice(ch, u, s, on) =>
      WithEntrySame(a, b, ch, s, FreshEntry(s, u).(voice := Some(on)), EntryIn(a, ch, s).(voice := Some(on)), EntryIn(b, ch, s).(voice := Some(on)));
    case SetHand(ch, u, s, hand) =>
      WithEntrySame(a, b, ch, s, FreshEntry(s, u).(raisedHand := Some(hand)), EntryIn(a, ch, s).(raisedHand := Some(hand)),
                    EntryIn(b, ch, s).(raisedHand := Some(hand)));
    case SetVideo(ch, u, s, on) =>
      WithEntrySame(a, b, ch, s, FreshEntry(s, u).(video := Some(on), unmuted := Some(!on)), EntryIn(a, ch, s).(video := Some(on)),
                    EntryIn(b, ch, s).(video := Some(on)));
    case SetReaction(ch, u, s, at) =>
      WithEntrySame(a, b, ch, s, FreshEntry(s, u).(reaction := Some(at)), EntryIn(a, ch, s).(reaction := Some(at)),
                    EntryIn(b, ch, s).(reaction := Some(at)));
  }

  lemma ReactionOverSame(a: map<ID, SessionEntries>, b: map<ID, SessionEntries>, x: Action)
    requires SameSessions(a, b) && x.ReactionOver?
    ensures SameSessions(SessionsReducer(a, x), SessionsReducer(b, x))
  {
  }

  lemma SessionsSame(a: map<ID, SessionEntries>, b: map<ID, SessionEntries>, x: Action)
    requires SameSessions(a, b)
    ensures SameSessions(SessionsReducer(a, x), SessionsReducer(b, x))
  {
    if IsPatch(x) {
      PatchSame(a, b, x);
    } else if x.ReactionOver? {
      ReactionOverSame(a, b, x);
    } else if x.Arrived? || x.Gone? {
      MemberSame(a, b, x);
    }
  }

  lemma MemberSame(a: map<ID, SessionEntries>, b: map<ID, SessionEntries>, x: Action)
    requires SameSessions(a, b) && (x.Arrived? || x.Gone?)
    ensures SameSessions(SessionsReducer(a, x), SessionsReducer(b, x))
  {
    if x.channelID in a { assert SameEntries(a[x.channelID], b[x.channelID]); }
  }

  lemma DispatchSame(a: Client, b: Client, x: Action)
    requires SameShown(a, b)
    ensures SameShown(Dispatch(a, x), Dispatch(b, x))
  {
    SessionsSame(a.sessions, b.sessions, x);
  }

  lemma SameCount(a: SessionEntries, b: SessionEntries)
    requires SameEntries(a, b)
    ensures |a| == |b|
  {
    assert |a.Keys| == |a| && |b.Keys| == |b|;
  }

  lemma LeftSame(a: Client, b: Client, ch: ID, u: ID, s: ID)
    requires SameShown(a, b)
    ensures SameShown(HandleUserLeft(a, ch, u, s), HandleUserLeft(b, ch, u, s))
  {
    var a1, b1 := Dispatch(a, Gone(ch, u, s)), Dispatch(b, Gone(ch, u, s));
    DispatchSame(a, b, Gone(ch, u, s));
    DispatchSame(a1, b1, EndOfCall(ch));
    if ch in a1.sessions {
      assert SameEntries(a1.sessions[ch], b1.sessions[ch]);
      SameCount(a1.sessions[ch], b1.sessions[ch]);
    }
  }

  lemma HandleSame(a: Client, b: Client, m: Msg)
    requires SameShown(a, b)
    ensures SameShown(Handle(a, m), Handle(b, m))
  {
    match m.ev
    case UserLeft(u, s) => LeftSame(a, b, m.channelID, u, s);
    case Snapshot(v) =>
      var ch := m.channelID;
      var x, y, z := SetSharing(ch, v.screenSharingSessionID), SetHost(ch, v.hostID), UsersStates(ch, EntriesOf(v.sessions));
      DispatchSame(a, b, x);
      DispatchSame(Dispatch(a, x), Dispatch(b, x), y);
      DispatchSame(Dispatch(Dispatch(a, x), y), Dispatch(Dispatch(b, x), y), z);
    case _ => DispatchSame(a, b, ActionOf(m));
  }

  lemma TimerSame(cl: Client, ch: ID, s: ID, at: nat)
    ensures SameShown(Dispatch(cl, ReactionOver(ch, s, at)), cl)
  {
  }

  /** What a client works off: the channel's messages, and the timers of reactions at any moment in between. */
  datatype Input = Message(msg: Msg) | Timer(channelID: ID, sessionID: ID, at: nat)

  function Process(cl: Client, userID: ID, inputs: seq<Input>): Client
    decreases |inputs|
  {
    if inputs == [] then cl
    else
      var cl1 := match inputs[0]
        case Message(m) => if Delivered(m, userID) then Handle(cl, m) else cl
        case Timer(ch, s, at) => Dispatch(cl, ReactionOver(ch, s, at));
      Process(cl1, userID, inputs[1..])
  }

  function Messages(inputs: seq<Input>): seq<Msg>
    decreases |inputs|
  {
    if inputs == [] then []
    else (if inputs[0].Message? then [inputs[0].msg] else []) + Messages(inputs[1..])
  }

  /** Whenever the timers fire, they change nothing that is compared with the server. */
  lemma {:induction false} TimersDoNotMatter(a: Client, b: Client, userID: ID, inputs: seq<Input>)
    requires SameShown(a, b)
    ensures SameShown(Process(a, userID, inputs), Receive(b, userID, Messages(inputs)))
    decreases |inputs|
  {
    if inputs != [] {
      match inputs[0] {
        case Message(m) =>
          var rest := Messages(inputs[1..]);
          assert Messages(inputs) == [m] + rest && ([m] + rest)[1..] == rest;
          HandleSame(a, b, m);
          if Delivered(m, userID) { TimersDoNotMatter(Handle(a, m), Handle(b, m), userID, inputs[1..]); }
          else { TimersDoNotMatter(a, b, userID, inputs[1..]); }
        case Timer(ch, s, at) =>
          assert Messages(inputs) == Messages(inputs[1..]);
          TimerSame(a, ch, s, at);
          SameTrans(Dispatch(a, ReactionOver(ch, s, at)), a, b);
          TimersDoNotMatter(Dispatch(a, ReactionOver(ch, s, at)), b, userID, inputs[1..]);
      }
    }
  }

  lemma SameTrans(a: Client, b: Client, c: Client)
    requires SameShown(a, b) && SameShown(b, c)
    ensures SameShown(a, c)
  {
    forall ch | ch in a.sessions ensures SameEntries(a.sessions[ch], c.sessions[ch]) {
      assert SameEntries(a.sessions[ch], b.sessions[ch]) && SameEntries(b.sessions[ch], c.sessions[ch]);
    }
  }
}
