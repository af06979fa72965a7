/** Event replay equals snapshot over whole runs: after any number of server steps a client that was given a
    snapshot and then read every message shows what the server holds. */
module ReplayRuns {
  import opened CallModel
  import opened CallStore
  import opened CallJobs
  import opened JobSafety
  import opened CallSessions
  import opened CallEngine
  import opened CallInvariant
  import opened ClientReducers
  import opened Replay

  ghost function ServerView(w: World, c: ID): ClientState
    requires c in w.db.calls
  {
    GetClientState(StateOf(w.db, c))
  }

  /** A client of the user has the session `own` in the channel's active call. */
  ghost predicate Watching(w: World, ch: ID, c: ID, userID: ID, own: ID) {
    && IsActiveCall(w.db.calls, ch, c)
    && own in w.db.sessions && w.db.sessions[own].callID == c && w.db.sessions[own].userID == userID != BOT
  }

  /** The steps a user's client in the channel can follow: those that are not media of the bot's, not the departure of a
      sharing or filming bot, not a join whose RTC setup fails, not the host's order to end the call, and not a voice or
      reaction message that reaches the user about a session that is not in the call, or is the bot's. */
  ghost predicate Visible(w: World, limit: nat, s: Step, ch: ID, userID: ID) {
    var st := ReadState(w.db, ch);
    match s
    case Join(a) => a.channelID == ch && Joined(st, w.db, limit, a) ==> a.userID == BOT || a.rtcOK
    case Leave(l) => l.channelID == ch && Leaves(st, l) ==> !HiddenLeave(st.value, l)
    case AskEnd(ech, r, admin) => ech == ch && st.Some? ==> !MayControl(st.value, r, admin)
    case SendMedia(mch, _, sid, _, _) => mch == ch && st.Some? && sid in st.value.sessions ==> st.value.sessions[sid].userID != BOT
    case Emit(ech, _, sid, _, read) =>
      ech == ch && (read == {} || userID in read) ==> st.Some? && sid in st.value.sessions && st.value.sessions[sid].userID != BOT
    case _ => true
  }

  predicate Concerns(s: Step, ch: ID, c: ID) {
    match s
    case Join(a) => a.channelID == ch
    case Leave(l) => l.channelID == ch
    case MakeHost(mch, _, _, _) => mch == ch
    case AskEnd(ech, _, _) => ech == ch
    case SendMedia(mch, _, _, _, _) => mch == ch
    case Share(mch, _, _, _, _) => mch == ch
    case Emit(ech, _, _, _, _) => ech == ch
    case Resend(rch, _) => rch == ch
    case Dismiss(dch, _) => dch == ch
    case RunJob(_, _) => false
    case Clean(x, _, _) => x == c
  }

  lemma WatchedState(w: World, limit: nat, ch: ID, c: ID, userID: ID, own: ID)
    requires Inv(w, limit) && Watching(w, ch, c, userID, own)
    ensures ReadState(w.db, ch) == Some(StateOf(w.db, c))
    ensures var st := StateOf(w.db, c);
            && own in st.sessions && st.sessions[own].userID == userID && userID in UsersOf(st.sessions)
            && (forall s :: s in st.sessions ==> st.sessions[s].id == s && s != NONE)
            && st.call.id == c
  {
    assert UniqueCall(w.db.calls, ch);
    ActiveCallIs(w.db.calls, ch, c);
  }

  // ----- steps that do not concern the call -----

  ghost predicate AllOn(msgs: seq<Msg>, ch: ID) {
    forall i :: 0 <= i < |msgs| ==> msgs[i].channelID == ch
  }

  lemma WelcomeOn(s2: CallState, a: JoinArgs)
    ensures AllOn(WelcomeMsgs(s2, a), a.channelID)
  {
  }

  lemma JoinMsgsOn(st: Option<CallState>, db: Store, limit: nat, a: JoinArgs)
    ensures AllOn(JoinCall(st, db, limit, a).msgs, a.channelID)
  {
    var r := AddUserSession(st, db, limit, a);
    if r.Added? {
      var s2 := JoinCall(st, db, limit, a).state.value;
      assert AllOn(r.msgs, a.channelID);
      WelcomeOn(s2, a);
      ThreeOn(r.msgs, StartMsgs(s2, a), WelcomeMsgs(s2, a), a.channelID);
    }
  }

  lemma ThreeOn(a: seq<Msg>, b: seq<Msg>, c: seq<Msg>, ch: ID)
    requires AllOn(a, ch) && AllOn(b, ch) && AllOn(c, ch)
    ensures AllOn(a + b + c, ch)
  {
  }

  lemma PartsOfLeaveOn(st: CallState, us: Session, left: map<ID, Session>, l: LeaveArgs)
    ensures AllOn(LeaveMsgs(st, us, left, l), l.channelID)
  {
    var users := UsersOf(left);
    MediaOffOn(st, us, l, users);
    ThreeOn(MediaOffMsgs(st, us, l, users), GoodbyeMsgs(l), RehostMsgs(st.call, left, l, users), l.channelID);
  }

  lemma MediaOffOn(st: CallState, us: Session, l: LeaveArgs, users: set<ID>)
    ensures AllOn(MediaOffMsgs(st, us, l, users), l.channelID)
  {
  }

  lemma LeaveMsgsOn(st: Option<CallState>, db: Store, l: LeaveArgs)
    requires l.now > 0
    ensures AllOn(RemoveUserSession(st, db, l).msgs, l.channelID)
  {
    if Leaves(st, l) {
      PartsOfLeaveOn(st.value, st.value.sessions[l.originalConnID], st.value.sessions - {l.originalConnID}, l);
    }
  }

  lemma OtherJoin(w: World, limit: nat, a: JoinArgs, ch: ID, c: ID)
    requires Inv(w, limit) && Enabled(w, limit, Join(a)) && c in w.db.calls && w.db.calls[c].channelID == ch != a.channelID
    ensures var w' := Next(w, limit, Join(a)); c in w'.db.calls && ServerView(w', c) == ServerView(w, c)
  {
    if Joined(ReadState(w.db, a.channelID), w.db, limit, a) {
      BaseFacts(w, limit, a);
      NewCallIffSingleSession(w, limit, a);
      SessionsOfInsert(w.db.sessions, a.connID, NewSession(BaseState(ReadState(w.db, a.channelID), a).call.id, a));
    }
  }

  lemma OtherLeave(w: World, limit: nat, l: LeaveArgs, ch: ID, c: ID)
    requires Inv(w, limit) && Enabled(w, limit, Leave(l)) && c in w.db.calls && w.db.calls[c].channelID == ch != l.channelID
    ensures var w' := Next(w, limit, Leave(l)); c in w'.db.calls && ServerView(w', c) == ServerView(w, c)
  {
    if Leaves(ReadState(w.db, l.channelID), l) {
      ReadFacts(w, limit, l.channelID);
      LeaveShape(w, limit, l);
    }
  }

  lemma OtherHost(w: World, limit: nat, s: Step, ch: ID, c: ID)
    requires Inv(w, limit) && Enabled(w, limit, s) && (s.MakeHost? || s.Share?) && c in w.db.calls && w.db.calls[c].channelID == ch != s.channelID
    ensures var w' := Next(w, limit, s); c in w'.db.calls && ServerView(w', c) == ServerView(w, c)
    ensures forall i :: 0 <= i < |Published(w, limit, s)| ==> Published(w, limit, s)[i].channelID != ch
  {
    ReadFacts(w, limit, s.channelID);
  }

  lemma OtherMedia(w: World, limit: nat, s: Step, ch: ID, c: ID)
    requires Inv(w, limit) && Enabled(w, limit, s) && s.SendMedia? && c in w.db.calls && w.db.calls[c].channelID == ch != s.channelID
    ensures var w' := Next(w, limit, s); c in w'.db.calls && ServerView(w', c) == ServerView(w, c)
    ensures forall i :: 0 <= i < |Published(w, limit, s)| ==> Published(w, limit, s)[i].channelID != ch
  {
    ReadFacts(w, limit, s.channelID);
    var o := ReadState(w.db, s.channelID);
    if o.Some? && s.sessionID in o.value.sessions {
      MediaShape(o.value, w.db, s.channelID, s.userID, s.sessionID, s.media, s.now);
      SessionsOfUpdate(w.db.sessions, s.sessionID, WithMedia(o.value.sessions[s.sessionID], s.media, s.now));
    }
  }

  lemma OtherDismissal(w: World, limit: nat, s: Step, ch: ID, c: ID)
    requires Inv(w, limit) && Enabled(w, limit, s) && s.Dismiss? && c in w.db.calls && w.db.calls[c].channelID == ch != s.channelID
    ensures var w' := Next(w, limit, s); c in w'.db.calls && ServerView(w', c) == ServerView(w, c)
  {
    ReadFacts(w, limit, s.channelID);
  }

  lemma OtherStep(w: World, limit: nat, s: Step, ch: ID, c: ID)
    requires Inv(w, limit) && Enabled(w, limit, s) && !Concerns(s, ch, c)
    requires c in w.db.calls && w.db.calls[c].channelID == ch
    ensures var w' := Next(w, limit, s); c in w'.db.calls && ServerView(w', c) == ServerView(w, c)
    ensures forall i :: 0 <= i < |Published(w, limit, s)| ==> Published(w, limit, s)[i].channelID != ch
  {
    match s
    case Join(a) => OtherJoin(w, limit, a, ch, c); JoinMsgsOn(ReadState(w.db, a.channelID), w.db, limit, a);
    case Leave(l) => OtherLeave(w, limit, l, ch, c); LeaveMsgsOn(ReadState(w.db, l.channelID), w.db, l);
    case MakeHost(_, _, _, _) => OtherHost(w, limit, s, ch, c);
    case AskEnd(_, _, _) =>
    case SendMedia(_, _, _, _, _) => OtherMedia(w, limit, s, ch, c);
    case Share(_, _, _, _, _) => OtherHost(w, limit, s, ch, c);
    case Emit(_, _, _, _, _) =>
    case Resend(_, _) =>
    case Dismiss(_, _) => OtherDismissal(w, limit, s, ch, c);
    case RunJob(_, _) =>
      assert Next(w, limit, s).db.calls == w.db.calls && Next(w, limit, s).db.sessions == w.db.sessions;
    case Clean(x, _, _) =>
      assert SessionsOf(Next(w, limit, s).db.sessions, c) == SessionsOf(w.db.sessions, c);
  }

  lemma InSyncSameChannel(cl: Client, cl': Client, ch: ID, v: ClientState)
    requires SameChannel(cl, cl', ch)
    ensures InSync(cl, ch, v) <==> InSync(cl', ch, v)
  {
  }

  // ----- steps of the call itself -----

  lemma FollowJoin(w: World, limit: nat, a: JoinArgs, c: ID, userID: ID, own: ID, cl: Client)
    requires Inv(w, limit) && Enabled(w, limit, Join(a)) && Watching(w, a.channelID, c, userID, own)
    requires InSync(cl, a.channelID, ServerView(w, c))
    ensures var w' := Next(w, limit, Join(a));
            c in w'.db.calls
            && (InSync(Receive(cl, userID, Published(w, limit, Join(a))), a.channelID, ServerView(w', c)) <==> Visible(w, limit, Join(a), a.channelID, userID))
  {
    WatchedState(w, limit, a.channelID, c, userID, own);
    var st := StateOf(w.db, c);
    if Joined(Some(st), w.db, limit, a) {
      NewCallIffSingleSession(w, limit, a);
      JoinReplay(st, w.db, limit, a, cl, userID);
      SessionsOfInsert(w.db.sessions, a.connID, NewSession(c, a));
    }
  }

  lemma FollowLeave(w: World, limit: nat, l: LeaveArgs, c: ID, userID: ID, own: ID, cl: Client)
    requires Inv(w, limit) && Enabled(w, limit, Leave(l)) && Watching(w, l.channelID, c, userID, own)
    requires Watching(Next(w, limit, Leave(l)), l.channelID, c, userID, own)
    requires InSync(cl, l.channelID, ServerView(w, c))
    ensures var w' := Next(w, limit, Leave(l));
            InSync(Receive(cl, userID, Published(w, limit, Leave(l))), l.channelID, ServerView(w', c)) <==> Visible(w, limit, Leave(l), l.channelID, userID)
  {
    WatchedState(w, limit, l.channelID, c, userID, own);
    var st := StateOf(w.db, c);
    if Leaves(Some(st), l) {
      LeaveShape(w, limit, l);
      LeaveReplay(st, w.db, l, cl, userID, own);
    }
  }

  /** What clients are shown depends on the call's row and its sessions only. */
  lemma ViewWithCall(w: World, w': World, c: ID)
    requires c in w.db.calls && c in w'.db.calls && w'.db.sessions == w.db.sessions
    ensures ServerView(w', c) == GetClientState(StateOf(w.db, c).(call := w'.db.calls[c]))
  {
  }

  lemma ViewWithSession(w: World, w': World, c: ID, x: Session)
    requires c in w.db.calls && w'.db.calls == w.db.calls && x.id in w.db.sessions && w.db.sessions[x.id].callID == x.callID == c
    requires w'.db.sessions == w.db.sessions[x.id := x]
    ensures var st := StateOf(w.db, c); ServerView(w', c) == GetClientState(st.(sessions := st.sessions[x.id := x]))
  {
    SessionsOfUpdate(w.db.sessions, x.id, x);
  }

  lemma FollowHost(w: World, limit: nat, s: Step, c: ID, userID: ID, own: ID, cl: Client)
    requires Inv(w, limit) && Enabled(w, limit, s) && s.MakeHost? && Watching(w, s.channelID, c, userID, own)
    requires InSync(cl, s.channelID, ServerView(w, c))
    ensures var w' := Next(w, limit, s);
            c in w'.db.calls && InSync(Receive(cl, userID, Published(w, limit, s)), s.channelID, ServerView(w', c))
  {
    WatchedState(w, limit, s.channelID, c, userID, own);
    MakeHostReplay(StateOf(w.db, c), w.db, s.channelID, s.requesterID, s.isAdmin, s.newHostID, cl, userID);
    ViewWithCall(w, Next(w, limit, s), c);
  }

  lemma FollowShare(w: World, limit: nat, s: Step, c: ID, userID: ID, own: ID, cl: Client)
    requires Inv(w, limit) && Enabled(w, limit, s) && s.Share? && Watching(w, s.channelID, c, userID, own)
    requires InSync(cl, s.channelID, ServerView(w, c))
    ensures var w' := Next(w, limit, s);
            c in w'.db.calls && InSync(Receive(cl, userID, Published(w, limit, s)), s.channelID, ServerView(w', c))
  {
    WatchedState(w, limit, s.channelID, c, userID, own);
    ShareReplay(StateOf(w.db, c), w.db, s.channelID, s.userID, s.sessionID, s.on, s.now, cl, userID);
    ViewWithCall(w, Next(w, limit, s), c);
  }

  /** A client that is told to leave the call no longer shows it, although it goes on at the server. */
  lemma FollowEnd(w: World, limit: nat, s: Step, c: ID, userID: ID, own: ID, cl: Client)
    requires Inv(w, limit) && Enabled(w, limit, s) && s.AskEnd? && Watching(w, s.channelID, c, userID, own)
    requires InSync(cl, s.channelID, ServerView(w, c))
    ensures InSync(Receive(cl, userID, Published(w, limit, s)), s.channelID, ServerView(Next(w, limit, s), c)) <==> Visible(w, limit, s, s.channelID, userID)
  {
    WatchedState(w, limit, s.channelID, c, userID, own);
    ViewWithCall(w, Next(w, limit, s), c);
    var msgs := Published(w, limit, s);
    if msgs != [] { ReceiveOne(cl, userID, msgs[0]); }
  }

  lemma MediaNext(w: World, limit: nat, s: Step, c: ID, userID: ID, own: ID)
    requires Inv(w, limit) && Enabled(w, limit, s) && s.SendMedia? && Watching(w, s.channelID, c, userID, own)
    ensures var st := StateOf(w.db, c);
            if s.sessionID in st.sessions then
              Next(w, limit, s).db == w.db.(sessions := w.db.sessions[s.sessionID := WithMedia(st.sessions[s.sessionID], s.media, s.now)])
            else Next(w, limit, s).db == w.db && Published(w, limit, s) == []
    ensures Published(w, limit, s) == HandleMedia(Some(StateOf(w.db, c)), w.db, s.channelID, s.userID, s.sessionID, s.media, s.now).msgs
  {
    WatchedState(w, limit, s.channelID, c, userID, own);
    var st := StateOf(w.db, c);
    if s.sessionID in st.sessions {
      MediaShape(st, w.db, s.channelID, s.userID, s.sessionID, s.media, s.now);
    }
  }

  lemma MediaFollowed(w: World, w': World, c: ID, ch: ID, u: ID, sid: ID, m: Media, now: nat, userID: ID, cl: Client)
    requires c in w.db.calls && w'.db.calls == w.db.calls
    requires var ss := StateOf(w.db, c).sessions;
             sid in ss && ss[sid].id == sid && ss[sid].callID == c && userID in UsersOf(ss)
             && w'.db.sessions == w.db.sessions[sid := WithMedia(ss[sid], m, now)]
    requires InSync(cl, ch, ServerView(w, c))
    ensures var st := StateOf(w.db, c);
            InSync(Receive(cl, userID, HandleMedia(Some(st), w.db, ch, u, sid, m, now).msgs), ch, ServerView(w', c))
            <==> st.sessions[sid].userID != BOT
  {
    var st := StateOf(w.db, c);
    MediaReplay(st, w.db, ch, u, sid, m, now, cl, userID);
    ViewWithSession(w, w', c, WithMedia(st.sessions[sid], m, now));
  }

  lemma FollowMedia(w: World, limit: nat, s: Step, c: ID, userID: ID, own: ID, cl: Client)
    requires Inv(w, limit) && Enabled(w, limit, s) && s.SendMedia? && Watching(w, s.channelID, c, userID, own)
    requires InSync(cl, s.channelID, ServerView(w, c))
    ensures var w' := Next(w, limit, s);
            c in w'.db.calls
            && (InSync(Receive(cl, userID, Published(w, limit, s)), s.channelID, ServerView(w', c)) <==> Visible(w, limit, s, s.channelID, userID))
  {
    WatchedState(w, limit, s.channelID, c, userID, own);
    MediaNext(w, limit, s, c, userID, own);
    if s.sessionID in StateOf(w.db, c).sessions {
      MediaFollowed(w, Next(w, limit, s), c, s.channelID, s.userID, s.sessionID, s.media, s.now, userID, cl);
    }
  }

  /** A voice or reaction message keeps the client in step exactly if it does not reach it or names a session it shows: for
      any other session the reducer makes up an entry. */
  lemma FollowSignal(w: World, limit: nat, s: Step, c: ID, userID: ID, own: ID, cl: Client)
    requires Inv(w, limit) && Enabled(w, limit, s) && s.Emit? && Watching(w, s.channelID, c, userID, own)
    requires InSync(cl, s.channelID, ServerView(w, c))
    ensures InSync(Receive(cl, userID, Published(w, limit, s)), s.channelID, ServerView(Next(w, limit, s), c))
            <==> Visible(w, limit, s, s.channelID, userID)
  {
    WatchedState(w, limit, s.channelID, c, userID, own);
    ViewWithCall(w, Next(w, limit, s), c);
    var msgs := Published(w, limit, s);
    ReceiveOne(cl, userID, msgs[0]);
    SignalMessage(cl, s.channelID, ServerView(w, c), s.userID, s.sessionID, s.signal, msgs[0].to);
  }

  /** A voice message that overtakes a departure: read while the session was in the call, published after it had left, it
      leaves the client with a session that the server no longer has. */
  lemma LateSignal(w: World, limit: nat, s: Step, c: ID, userID: ID, own: ID, cl: Client)
    requires Inv(w, limit) && Enabled(w, limit, s) && s.Emit? && Watching(w, s.channelID, c, userID, own)
    requires InSync(cl, s.channelID, ServerView(w, c)) && userID in s.read && s.sessionID !in SessionsOf(w.db.sessions, c)
    ensures var cl' := Receive(cl, userID, Published(w, limit, s));
            && s.channelID in cl'.sessions && s.sessionID in cl'.sessions[s.channelID]
            && s.sessionID !in ServerView(Next(w, limit, s), c).sessions
  {
    WatchedState(w, limit, s.channelID, c, userID, own);
    ReceiveOne(cl, userID, Published(w, limit, s)[0]);
  }

  lemma ResendSyncs(cl: Client, userID: ID, ch: ID, v: ClientState, m: Msg)
    requires InSync(cl, ch, v) && m.channelID == ch && m.ev == Snapshot(v)
    ensures InSync(Receive(cl, userID, [m]), ch, v)
  {
    ReceiveOne(cl, userID, m);
    SnapshotSyncs(cl, ch, v);
  }

  lemma FollowResend(w: World, limit: nat, s: Step, c: ID, userID: ID, own: ID, cl: Client)
    requires Inv(w, limit) && Enabled(w, limit, s) && s.Resend? && Watching(w, s.channelID, c, userID, own)
    requires InSync(cl, s.channelID, ServerView(w, c))
    ensures InSync(Receive(cl, userID, Published(w, limit, s)), s.channelID, ServerView(Next(w, limit, s), c))
  {
    WatchedState(w, limit, s.channelID, c, userID, own);
    ResendSyncs(cl, userID, s.channelID, ServerView(w, c), Published(w, limit, s)[0]);
  }

  lemma FollowDismissal(w: World, limit: nat, s: Step, c: ID, userID: ID, own: ID, cl: Client)
    requires Inv(w, limit) && Enabled(w, limit, s) && s.Dismiss? && Watching(w, s.channelID, c, userID, own)
    requires InSync(cl, s.channelID, ServerView(w, c))
    ensures var w' := Next(w, limit, s);
            c in w'.db.calls && InSync(Receive(cl, userID, Published(w, limit, s)), s.channelID, ServerView(w', c))
  {
    WatchedState(w, limit, s.channelID, c, userID, own);
    ViewWithCall(w, Next(w, limit, s), c);
  }

  /** Over one step of the engine, in any channel, a client that stays in its call stays in step with the server
      if and only if the step is visible. */
  lemma FollowStep(w: World, limit: nat, s: Step, ch: ID, c: ID, userID: ID, own: ID, cl: Client)
    requires Inv(w, limit) && Enabled(w, limit, s)
    requires Watching(w, ch, c, userID, own) && Watching(Next(w, limit, s), ch, c, userID, own)
    requires InSync(cl, ch, ServerView(w, c))
    ensures InSync(Receive(cl, userID, Published(w, limit, s)), ch, ServerView(Next(w, limit, s), c)) <==> Visible(w, limit, s, ch, userID)
  {
    if !Concerns(s, ch, c) {
      OtherStep(w, limit, s, ch, c);
      ReceiveFrame(cl, userID, Published(w, limit, s), ch);
      InSyncSameChannel(cl, Receive(cl, userID, Published(w, limit, s)), ch, ServerView(w, c));
    } else {
      match s {
        case Join(a) => FollowJoin(w, limit, a, c, userID, own, cl);
        case Leave(l) => FollowLeave(w, limit, l, c, userID, own, cl);
        case MakeHost(_, _, _, _) => FollowHost(w, limit, s, c, userID, own, cl);
        case AskEnd(_, _, _) => FollowEnd(w, limit, s, c, userID, own, cl);
        case Emit(_, _, _, _, _) => FollowSignal(w, limit, s, c, userID, own, cl);
        case Resend(_, _) => FollowResend(w, limit, s, c, userID, own, cl);
        case Dismiss(_, _) => FollowDismissal(w, limit, s, c, userID, own, cl);
        case SendMedia(_, _, _, _, _) => FollowMedia(w, limit, s, c, userID, own, cl);
        case Share(_, _, _, _, _) => FollowShare(w, limit, s, c, userID, own, cl);
        case Clean(_, _, _) => assert false;
      }
    }
  }

  // ----- runs -----

  /** The client stays in the call over the run, and every step is visible. */
  ghost predicate Followed(w: World, limit: nat, steps: seq<Step>, ch: ID, c: ID, userID: ID, own: ID)
    decreases |steps|
  {
    Watching(w, ch, c, userID, own) &&
    (steps == [] ||
     (Enabled(w, limit, steps[0]) && Visible(w, limit, steps[0], ch, userID) && Followed(Next(w, limit, steps[0]), limit, steps[1..], ch, c, userID, own)))
  }

  /** Everything a run publishes. */
  ghost function Stream(w: World, limit: nat, steps: seq<Step>): seq<Msg>
    requires ValidRun(w, limit, steps)
    decreases |steps|
  {
    if steps == [] then [] else Published(w, limit, steps[0]) + Stream(Next(w, limit, steps[0]), limit, steps[1..])
  }

  lemma {:induction false} RunLog(w: World, limit: nat, steps: seq<Step>)
    requires ValidRun(w, limit, steps)
    ensures Run(w, limit, steps).log == w.log + Stream(w, limit, steps)
    decreases |steps|
  {
    if steps != [] { RunLog(Next(w, limit, steps[0]), limit, steps[1..]); }
  }

  lemma {:induction false} FollowedIsValid(w: World, limit: nat, steps: seq<Step>, ch: ID, c: ID, userID: ID, own: ID)
    requires Followed(w, limit, steps, ch, c, userID, own)
    ensures ValidRun(w, limit, steps)
    ensures Watching(Run(w, limit, steps), ch, c, userID, own)
    decreases |steps|
  {
    if steps != [] { FollowedIsValid(Next(w, limit, steps[0]), limit, steps[1..], ch, c, userID, own); }
  }

  lemma {:induction false} ReplayStream(w: World, limit: nat, steps: seq<Step>, ch: ID, c: ID, userID: ID, own: ID, cl: Client)
    requires Inv(w, limit) && Followed(w, limit, steps, ch, c, userID, own) && ValidRun(w, limit, steps)
    requires InSync(cl, ch, ServerView(w, c))
    ensures c in Run(w, limit, steps).db.calls
    ensures InSync(Receive(cl, userID, Stream(w, limit, steps)), ch, ServerView(Run(w, limit, steps), c))
    decreases |steps|
  {
    if steps != [] {
      var s := steps[0];
      var w1 := Next(w, limit, s);
      StepKeeps(w, limit, s);
      FollowStep(w, limit, s, ch, c, userID, own, cl);
      ReplayStream(w1, limit, steps[1..], ch, c, userID, own, Receive(cl, userID, Published(w, limit, s)));
      ReceiveConcat(cl, userID, Published(w, limit, s), Stream(w1, limit, steps[1..]));
    }
  }

  /** A client that loads a snapshot and then reads every message published since shows, at the end, exactly the
      server's sessions, host and screen sharer. */
  lemma ReplayEqualsSnapshot(w: World, limit: nat, steps: seq<Step>, ch: ID, c: ID, userID: ID, own: ID, cl: Client)
    requires Inv(w, limit) && Followed(w, limit, steps, ch, c, userID, own)
    ensures ValidRun(w, limit, steps)
    ensures var e := Run(w, limit, steps);
            && c in e.db.calls && |w.log| <= |e.log|
            && InSync(Receive(LoadCallState(cl, ch, ServerView(w, c)), userID, e.log[|w.log|..]), ch, ServerView(e, c))
  {
    FollowedIsValid(w, limit, steps, ch, c, userID, own);
    SnapshotSyncs(cl, ch, ServerView(w, c));
    RunLog(w, limit, steps);
    ReplayStream(w, limit, steps, ch, c, userID, own, LoadCallState(cl, ch, ServerView(w, c)));
  }

  /** The same while reactions come and go: their timers may fire at any moment between the messages. */
  lemma ReplayWithTimers(w: World, limit: nat, steps: seq<Step>, ch: ID, c: ID, userID: ID, own: ID, cl: Client, inputs: seq<Input>)
    requires Inv(w, limit) && Followed(w, limit, steps, ch, c, userID, own) && ValidRun(w, limit, steps)
    requires Messages(inputs) == Stream(w, limit, steps)
    ensures var e := Run(w, limit, steps);
            c in e.db.calls && InSync(Process(LoadCallState(cl, ch, ServerView(w, c)), userID, inputs), ch, ServerView(e, c))
  {
    var cl0 := LoadCallState(cl, ch, ServerView(w, c));
    SnapshotSyncs(cl, ch, ServerView(w, c));
    ReplayStream(w, limit, steps, ch, c, userID, own, cl0);
    TimersDoNotMatter(cl0, cl0, userID, inputs);
    SameInSync(Process(cl0, userID, inputs), Receive(cl0, userID, Messages(inputs)), ch, ServerView(Run(w, limit, steps), c));
  }

  /** What the host's or an admin's order to end the call comes to: every client that reads it drops the call, and nothing
      at the server changes until they leave; from anyone else it is not even published. */
  lemma OrderToEnd(w: World, limit: nat, s: Step, c: ID, userID: ID, cl: Client)
    requires Inv(w, limit) && s.AskEnd? && IsActiveCall(w.db.calls, s.channelID, c)
    ensures var cl' := Receive(cl, userID, Published(w, limit, s));
            && Next(w, limit, s).db == w.db
            && (if s.requesterID == w.db.calls[c].HostID() || s.isAdmin then s.channelID !in cl'.sessions else cl' == cl)
  {
    assert UniqueCall(w.db.calls, s.channelID);
    ActiveCallIs(w.db.calls, s.channelID, c);
    var msgs := Published(w, limit, s);
    if msgs != [] { ReceiveOne(cl, userID, msgs[0]); }
  }
}
