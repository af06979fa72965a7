/** What the invariant gives over every run of the engine. */
module CallTheorems {
  import opened CallModel
  import opened CallStore
  import opened CallJobs
  import opened JobSafety
  import opened CallSessions
  import opened CallEngine
  import opened CallInvariant

  /** A world the engine can get into. */
  ghost predicate Reachable(w: World, limit: nat) {
    exists steps :: ValidRun(EMPTY, limit, steps) && Run(EMPTY, limit, steps) == w
  }

  lemma ReachableInv(w: World, limit: nat)
    requires Reachable(w, limit)
    ensures Inv(w, limit)
  {
    var steps :| ValidRun(EMPTY, limit, steps) && Run(EMPTY, limit, steps) == w;
    EmptyInv(limit);
    RunKeeps(EMPTY, limit, steps);
  }

  /** In every reachable active call: with a session that is not the bot's, the host is a user who is present and
      not the bot; otherwise there is no host; and a locked user who is present is the host. */
  lemma HostIsPresent(w: World, limit: nat, c: ID)
    requires Reachable(w, limit) && c in w.db.calls && w.db.calls[c].endAt == 0
    ensures var ss := SessionsOf(w.db.sessions, c);
            var host := w.db.calls[c].HostID();
            var locked := w.db.calls[c].props.hostLockedUserID;
            && (host == NONE <==> !SomeoneInCall(ss))
            && (host != NONE ==> host != BOT && InCall(ss, host))
            && (locked != NONE && InCall(ss, locked) ==> host == locked)
  {
    ReachableInv(w, limit);
    assert CallOK(w.db.calls[c], SessionsOf(w.db.sessions, c), w.joined[c], limit);
  }

  /** The call has a running recording or transcription with this row ID that has not started. */
  predicate AwaitsBot(rows: map<ID, Job>, callID: ID, rowID: ID) {
    (IsActiveJob(rows, callID, Recording, rowID) || IsActiveJob(rows, callID, Transcribing, rowID)) && rows[rowID].startAt == 0
  }

  /** Exactly who gets in. Into an ongoing call, anyone while there is room, the bot only for a job of that call that awaits
      it; without one, anyone but the bot who may start a call, if an rtcd host can be found where one is needed. */
  lemma JoinedIff(w: World, limit: nat, a: JoinArgs)
    requires Inv(w, limit) && Enabled(w, limit, Join(a))
    ensures (forall c :: !IsActiveCall(w.db.calls, a.channelID, c)) ==>
              (Joined(ReadState(w.db, a.channelID), w.db, limit, a) <==> a.allowed && !a.rtcd.NoHost? && a.userID != BOT)
    ensures forall c :: IsActiveCall(w.db.calls, a.channelID, c) ==>
              (Joined(ReadState(w.db, a.channelID), w.db, limit, a) <==>
                 && (limit == 0 || |SessionsOf(w.db.sessions, c)| < limit)
                 && (a.userID == BOT ==> AwaitsBot(w.db.jobs, c, a.jobID)))
  {
    ReadFacts(w, limit, a.channelID);
    var st := ReadState(w.db, a.channelID);
    forall c | IsActiveCall(w.db.calls, a.channelID, c)
      ensures Joined(st, w.db, limit, a) <==>
                (limit == 0 || |SessionsOf(w.db.sessions, c)| < limit) && (a.userID == BOT ==> AwaitsBot(w.db.jobs, c, a.jobID))
    {
      ReadsCall(w, limit, c);
      BotJoinsIff(w.db.jobs, c, a.jobID, a.connID);
    }
  }

  lemma BotJoinsIff(rows: map<ID, Job>, callID: ID, rowID: ID, connID: ID)
    requires JobsKeyed(rows) && OneOfEach(rows)
    ensures BotJoins(JobsOf(rows, callID), rows, rowID, connID).Some? <==> AwaitsBot(rows, callID, rowID)
  {
    ActiveJobFound(rows, callID, Recording);
    ActiveJobFound(rows, callID, Transcribing);
    assert UniqueJob(rows, callID, Recording) && UniqueJob(rows, callID, Transcribing);
    if IsActiveJob(rows, callID, Recording, rowID) { ActiveJobIs(rows, callID, Recording, rowID); }
    if IsActiveJob(rows, callID, Transcribing, rowID) { ActiveJobIs(rows, callID, Transcribing, rowID); }
  }

  /** Dismissing the notification of a call notes the user in its record and does nothing else; ended calls are not touched. */
  lemma DismissFrame(w: World, limit: nat, s: Step, c: ID)
    requires Inv(w, limit) && Enabled(w, limit, s) && s.Dismiss? && c in w.db.calls
    ensures var w' := Next(w, limit, s);
            var call := w.db.calls[c];
            && w'.db == w.db.(calls := w'.db.calls) && w'.joined == w.joined && w'.log == w.log && c in w'.db.calls
            && w'.db.calls[c] ==
               if call.endAt == 0 && call.channelID == s.channelID then
                 call.(props := call.props.(dismissed := call.props.dismissed[s.userID := true]))
               else call
  {
    ReadFacts(w, limit, s.channelID);
    if w.db.calls[c].endAt == 0 { ReadsCall(w, limit, c); }
  }

  /** The host of a call that stays active changes only by changeHost, when the old host has no session left
      (an empty host never has one), or when the locked user comes back. */
  lemma HostChangesOnly(w: World, limit: nat, s: Step, c: ID)
    requires Inv(w, limit) && Enabled(w, limit, s)
    requires c in w.db.calls && w.db.calls[c].endAt == 0
    ensures var w' := Next(w, limit, s);
            var old' := w.db.calls[c].HostID();
            c in w'.db.calls && (w'.db.calls[c].endAt == 0 && w'.db.calls[c].HostID() != old' ==>
              || (s.MakeHost? && s.channelID == w.db.calls[c].channelID)
              || !InCall(SessionsOf(w'.db.sessions, c), old')
              || (s.Join? && s.join.userID == w'.db.calls[c].HostID() == w.db.calls[c].props.hostLockedUserID))
  {
    match s {
      case Join(a) =>
        if Joined(ReadState(w.db, a.channelID), w.db, limit, a) { JoinChangesHost(w, limit, a, c); }
      case Leave(l) =>
        if Leaves(ReadState(w.db, l.channelID), l) { LeaveChangesHost(w, limit, l, c); }
      case MakeHost(_, _, _, _) => HostOfOthers(w, limit, s, c);
      case AskEnd(_, _, _) => assert Next(w, limit, s).db.calls == w.db.calls;
      case Emit(_, _, _, _, _) => assert Next(w, limit, s).db.calls == w.db.calls;
      case Resend(_, _) => assert Next(w, limit, s).db.calls == w.db.calls;
      case Dismiss(_, _) => DismissFrame(w, limit, s, c);
      case SendMedia(_, _, _, _, _) => assert Next(w, limit, s).db.calls == w.db.calls;
      case Share(_, _, _, _, _) => ShareKeepsHost(w, limit, s, c);
      case RunJob(_, _) => assert Next(w, limit, s).db.calls == w.db.calls;
      case Clean(_, _, _) =>
    }
  }

  lemma HostOfOthers(w: World, limit: nat, s: Step, c: ID)
    requires Inv(w, limit) && Enabled(w, limit, s) && s.MakeHost? && c in w.db.calls
    ensures var w' := Next(w, limit, s);
            c in w'.db.calls && (s.channelID != w.db.calls[c].channelID ==> w'.db.calls[c] == w.db.calls[c])
  {
    ReadFacts(w, limit, s.channelID);
  }

  lemma ShareKeepsHost(w: World, limit: nat, s: Step, c: ID)
    requires Inv(w, limit) && Enabled(w, limit, s) && s.Share? && c in w.db.calls
    ensures var w' := Next(w, limit, s); c in w'.db.calls && w'.db.calls[c].HostID() == w.db.calls[c].HostID()
  {
    ReadFacts(w, limit, s.channelID);
  }

  lemma JoinChangesHost(w: World, limit: nat, a: JoinArgs, c: ID)
    requires Inv(w, limit) && Enabled(w, limit, Join(a)) && Joined(ReadState(w.db, a.channelID), w.db, limit, a)
    requires c in w.db.calls && w.db.calls[c].endAt == 0
    ensures var w' := Next(w, limit, Join(a));
            c in w'.db.calls && (w'.db.calls[c].HostID() != w.db.calls[c].HostID() ==>
              || !InCall(SessionsOf(w'.db.sessions, c), w.db.calls[c].HostID())
              || a.userID == w'.db.calls[c].HostID() == w.db.calls[c].props.hostLockedUserID)
  {
    BaseFacts(w, limit, a);
    NewCallIffSingleSession(w, limit, a);
    var st := ReadState(w.db, a.channelID);
    var base := BaseState(st, a);
    var w' := Next(w, limit, Join(a));
    if st.Some? && c == base.call.id {
      var ss := base.sessions[a.connID := NewSession(base.call.id, a)];
      SessionsOfInsert(w.db.sessions, a.connID, NewSession(c, a));
      var locked := base.call.props.hostLockedUserID;
      if locked != NONE && InCall(ss, locked) && !InCall(base.sessions, locked) {
        var s :| s in ss && ss[s].userID == locked;
        assert s == a.connID;
      }
    }
  }

  lemma LeaveChangesHost(w: World, limit: nat, l: LeaveArgs, c: ID)
    requires Inv(w, limit) && Enabled(w, limit, Leave(l)) && Leaves(ReadState(w.db, l.channelID), l)
    requires c in w.db.calls && w.db.calls[c].endAt == 0
    ensures var w' := Next(w, limit, Leave(l));
            c in w'.db.calls && (w'.db.calls[c].HostID() != w.db.calls[c].HostID() && w'.db.calls[c].endAt == 0 ==>
              !InCall(SessionsOf(w'.db.sessions, c), w.db.calls[c].HostID()))
  {
    ReadFacts(w, limit, l.channelID);
    LeaveShape(w, limit, l);
    var st := ReadState(w.db, l.channelID).value;
    if c == st.call.id {
      var left := st.sessions - {l.originalConnID};
      var locked := st.call.props.hostLockedUserID;
      if InCall(left, st.call.HostID()) && locked != NONE && InCall(left, locked) {
        var x :| x in left && left[x].userID == locked;
        assert x in st.sessions && st.sessions[x].userID == locked;
      }
    }
  }

  /** Who shares the screen of call c after a step: sharing starts only when nobody shares, and stops only by the
      sharing session's own word or its leaving. */
  ghost function NextSharer(w: World, s: Step, c: ID): ID
    requires c in w.db.calls
  {
    var call := w.db.calls[c];
    var sharer := call.props.screenSharingSessionID;
    match s
    case Share(ch, _, sid, on, _) =>
      if ch != call.channelID then sharer
      else if on then (if sharer == NONE then sid else sharer)
      else if sharer == sid then NONE else sharer
    case Leave(l) =>
      if l.channelID == call.channelID && l.originalConnID in SessionsOf(w.db.sessions, c) && sharer == l.originalConnID then NONE
      else sharer
    case _ => sharer
  }

  /** The sharer of a call that stays active, after any step whatever: nobody can end or take over another's sharing. */
  lemma SharerChangesOnly(w: World, limit: nat, s: Step, c: ID)
    requires Inv(w, limit) && Enabled(w, limit, s)
    requires c in w.db.calls && w.db.calls[c].endAt == 0
    ensures var w' := Next(w, limit, s);
            c in w'.db.calls && (w'.db.calls[c].endAt == 0 ==> w'.db.calls[c].props.screenSharingSessionID == NextSharer(w, s, c))
  {
    match s {
      case Join(a) => JoinFrame(w, limit, a, c);
      case Leave(l) => LeaveSharer(w, limit, l, c);
      case MakeHost(_, _, _, _) => RehostFrame(w, limit, s, c);
      case Share(_, _, _, _, _) => ShareSharer(w, limit, s, c);
      case AskEnd(_, _, _) =>
      case Emit(_, _, _, _, _) =>
      case Resend(_, _) =>
      case Dismiss(_, _) => DismissFrame(w, limit, s, c);
      case SendMedia(_, _, _, _, _) =>
      case RunJob(_, _) =>
      case Clean(_, _, _) =>
    }
  }

  /** What the query returns for the channel of an active call. */
  lemma ReadsCall(w: World, limit: nat, c: ID)
    requires Inv(w, limit) && c in w.db.calls && w.db.calls[c].endAt == 0
    ensures ReadState(w.db, w.db.calls[c].channelID) == Some(StateOf(w.db, c))
  {
    var ch := w.db.calls[c].channelID;
    assert UniqueCall(w.db.calls, ch);
    assert IsActiveCall(w.db.calls, ch, c);
    ActiveCallIs(w.db.calls, ch, c);
  }

  lemma JoinFrame(w: World, limit: nat, a: JoinArgs, c: ID)
    requires Inv(w, limit) && Enabled(w, limit, Join(a)) && c in w.db.calls && w.db.calls[c].endAt == 0
    ensures var w' := Next(w, limit, Join(a));
            c in w'.db.calls && w'.db.calls[c].props.screenSharingSessionID == w.db.calls[c].props.screenSharingSessionID
            && SameLock(w.db.calls[c], w'.db.calls[c]) && w'.db.calls[c].endAt == 0
  {
    if Joined(ReadState(w.db, a.channelID), w.db, limit, a) {
      BaseFacts(w, limit, a);
      NewCallIffSingleSession(w, limit, a);
    }
  }

  lemma RehostFrame(w: World, limit: nat, s: Step, c: ID)
    requires Inv(w, limit) && s.MakeHost? && Enabled(w, limit, s) && c in w.db.calls && w.db.calls[c].endAt == 0
    ensures var w' := Next(w, limit, s);
            c in w'.db.calls && w'.db.calls[c].props.screenSharingSessionID == w.db.calls[c].props.screenSharingSessionID
            && w'.db.calls[c].endAt == 0
  {
    ReadFacts(w, limit, s.channelID);
  }

  lemma LeaveSharer(w: World, limit: nat, l: LeaveArgs, c: ID)
    requires Inv(w, limit) && Enabled(w, limit, Leave(l)) && c in w.db.calls && w.db.calls[c].endAt == 0
    ensures var w' := Next(w, limit, Leave(l));
            c in w'.db.calls && (w'.db.calls[c].endAt == 0 ==> w'.db.calls[c].props.screenSharingSessionID == NextSharer(w, Leave(l), c))
            && SameLock(w.db.calls[c], w'.db.calls[c])
  {
    ReadsCall(w, limit, c);
    ReadFacts(w, limit, l.channelID);
    if Leaves(ReadState(w.db, l.channelID), l) { LeaveShape(w, limit, l); }
  }

  lemma ShareSharer(w: World, limit: nat, s: Step, c: ID)
    requires Inv(w, limit) && s.Share? && Enabled(w, limit, s) && c in w.db.calls && w.db.calls[c].endAt == 0
    ensures var w' := Next(w, limit, s);
            c in w'.db.calls && w'.db.calls[c].props.screenSharingSessionID == NextSharer(w, s, c)
            && SameLock(w.db.calls[c], w'.db.calls[c]) && w'.db.calls[c].endAt == 0
  {
    ReadsCall(w, limit, c);
    ReadFacts(w, limit, s.channelID);
  }

  /** An active call ends exactly when its only session leaves or it is cleaned up: not by a host's order, and not while
      anyone, be it only the bot, is in it. */
  lemma EndsIff(w: World, limit: nat, s: Step, c: ID)
    requires Inv(w, limit) && Enabled(w, limit, s)
    requires c in w.db.calls && w.db.calls[c].endAt == 0
    ensures var w' := Next(w, limit, s);
            c in w'.db.calls &&
            (w'.db.calls[c].endAt != 0 <==>
               || (s.Clean? && s.callID == c)
               || (s.Leave? && s.leave.channelID == w.db.calls[c].channelID
                   && SessionsOf(w.db.sessions, c).Keys == {s.leave.originalConnID}))
  {
    match s {
      case Join(a) => JoinFrame(w, limit, a, c);
      case Leave(l) => LeaveEnds(w, limit, l, c);
      case MakeHost(_, _, _, _) => RehostFrame(w, limit, s, c);
      case Share(_, _, _, _, _) => ShareSharer(w, limit, s, c);
      case AskEnd(_, _, _) =>
      case Emit(_, _, _, _, _) =>
      case Resend(_, _) =>
      case Dismiss(_, _) => DismissFrame(w, limit, s, c);
      case SendMedia(_, _, _, _, _) =>
      case RunJob(_, _) =>
      case Clean(_, _, _) =>
    }
  }

  lemma LeaveEnds(w: World, limit: nat, l: LeaveArgs, c: ID)
    requires Inv(w, limit) && Enabled(w, limit, Leave(l)) && c in w.db.calls && w.db.calls[c].endAt == 0
    ensures var w' := Next(w, limit, Leave(l));
            c in w'.db.calls &&
            (w'.db.calls[c].endAt != 0 <==>
               l.channelID == w.db.calls[c].channelID && SessionsOf(w.db.sessions, c).Keys == {l.originalConnID})
  {
    ReadsCall(w, limit, c);
    ReadFacts(w, limit, l.channelID);
    var st := ReadState(w.db, l.channelID);
    if Leaves(st, l) {
      LeaveShape(w, limit, l);
      LastOne(st.value.sessions, l.originalConnID);
    }
  }

  lemma LastOne(sessions: map<ID, Session>, s: ID)
    requires s in sessions
    ensures |sessions - {s}| == 0 <==> sessions.Keys == {s}
  {
    var left := sessions - {s};
    assert sessions.Keys == left.Keys + {s} && |left.Keys| == |left|;
    if sessions.Keys == {s} { assert left.Keys == {}; }
  }

  predicate SameLock(a: Call, b: Call) {
    b.channelID == a.channelID && b.props.hostLockedUserID == a.props.hostLockedUserID
  }

  predicate NamesHost(s: Step, channelID: ID) {
    s.MakeHost? && s.channelID == channelID
  }

  /** The user the host role is locked to changes by changeHost only. */
  lemma LockChangesOnly(w: World, limit: nat, s: Step, c: ID)
    requires Inv(w, limit) && Enabled(w, limit, s)
    requires c in w.db.calls && w.db.calls[c].endAt == 0 && !NamesHost(s, w.db.calls[c].channelID)
    ensures var w' := Next(w, limit, s);
            c in w'.db.calls && SameLock(w.db.calls[c], w'.db.calls[c])
  {
    match s {
      case Join(a) => JoinFrame(w, limit, a, c);
      case Leave(l) => LeaveSharer(w, limit, l, c);
      case MakeHost(_, _, _, _) => HostOfOthers(w, limit, s, c);
      case Share(_, _, _, _, _) => ShareSharer(w, limit, s, c);
      case AskEnd(_, _, _) =>
      case Emit(_, _, _, _, _) =>
      case Resend(_, _) =>
      case Dismiss(_, _) => DismissFrame(w, limit, s, c);
      case SendMedia(_, _, _, _, _) =>
      case RunJob(_, _) =>
      case Clean(_, _, _) =>
    }
  }

  /** changeHost, in any world: who may ask for what, and what it comes to. The requester must be the host or an admin; the
      new host must be in the call, or be the host already, and never the bot; the role is then locked, to the new host
      unless it was the host already and had been locked before. The call's other columns stay. */
  lemma MakeHostOutcome(w: World, limit: nat, s: Step, c: ID)
    requires Inv(w, limit) && Enabled(w, limit, s)
    requires c in w.db.calls && w.db.calls[c].endAt == 0 && NamesHost(s, w.db.calls[c].channelID)
    ensures var w' := Next(w, limit, s);
            var call := w.db.calls[c];
            var ss := SessionsOf(w.db.sessions, c);
            var granted := (s.requesterID == call.HostID() || s.isAdmin) && s.newHostID != BOT
                           && (s.newHostID == call.HostID() || InCall(ss, s.newHostID));
            var locked := call.props.hostLockedUserID;
            && c in w'.db.calls
            && w'.db.calls[c].HostID() == (if granted then s.newHostID else call.HostID())
            && w'.db.calls[c].props.hostLockedUserID ==
               (if granted && (s.newHostID != call.HostID() || locked == NONE) then s.newHostID else locked)
            && w'.db.calls[c] == call.(props := call.props.(hosts := w'.db.calls[c].props.hosts,
                                                           hostLockedUserID := w'.db.calls[c].props.hostLockedUserID))
            && (w'.log != w.log <==> w'.db.calls[c].HostID() != call.HostID())
  {
    ReadsCall(w, limit, c);
    ReadFacts(w, limit, s.channelID);
    PublishedGrows(w.log, Published(w, limit, s));
  }

  lemma PublishedGrows(log: seq<Msg>, msgs: seq<Msg>)
    ensures log + msgs != log <==> msgs != []
  {
    if log + msgs == log { assert |log + msgs| == |log| + |msgs|; }
  }

  ghost predicate NoHostNamed(steps: seq<Step>, channelID: ID) {
    forall i :: 0 <= i < |steps| ==> !NamesHost(steps[i], channelID)
  }

  /** Through any run in which nobody names another host, and however often the locked user leaves and comes back, the role
      is theirs whenever they are in the call. */
  lemma {:induction false} LockHolds(w: World, limit: nat, steps: seq<Step>, c: ID, user: ID)
    requires Inv(w, limit) && ValidRun(w, limit, steps) && user != NONE
    requires c in w.db.calls && w.db.calls[c].endAt == 0 && w.db.calls[c].props.hostLockedUserID == user
    requires NoHostNamed(steps, w.db.calls[c].channelID)
    ensures var w' := Run(w, limit, steps);
            && c in w'.db.calls
            && (w'.db.calls[c].endAt == 0 ==> w'.db.calls[c].props.hostLockedUserID == user)
            && (w'.db.calls[c].endAt == 0 && InCall(SessionsOf(w'.db.sessions, c), user) ==> w'.db.calls[c].HostID() == user)
    decreases |steps|
  {
    if steps == [] {
      assert CallOK(w.db.calls[c], SessionsOf(w.db.sessions, c), w.joined[c], limit);
    } else {
      var w1 := Next(w, limit, steps[0]);
      assert !NamesHost(steps[0], w.db.calls[c].channelID);
      StepKeeps(w, limit, steps[0]);
      LockChangesOnly(w, limit, steps[0], c);
      if w1.db.calls[c].endAt == 0 {
        LockHolds(w1, limit, steps[1..], c, user);
      } else {
        EndedCallFrozenForever(w1, limit, steps[1..], c);
      }
    }
  }

  /** A locked host who leaves and comes back has the role again. */
  lemma LockedHostReturns(w: World, limit: nat, a: JoinArgs)
    requires Inv(w, limit) && Enabled(w, limit, Join(a)) && Joined(ReadState(w.db, a.channelID), w.db, limit, a)
    requires BaseState(ReadState(w.db, a.channelID), a).call.props.hostLockedUserID == a.userID
    ensures JoinCall(ReadState(w.db, a.channelID), w.db, limit, a).state.value.call.HostID() == a.userID
  {
    var base := BaseState(ReadState(w.db, a.channelID), a);
    var ss := base.sessions[a.connID := NewSession(base.call.id, a)];
    assert ss[a.connID].userID == a.userID;
  }

  /** A channel never has two active calls; an active call always has a session and respects the limit; every
      call that exists was announced by exactly one call_start, and none is announced that does not exist. */
  lemma CallLifecycle(w: World, limit: nat)
    requires Reachable(w, limit)
    ensures forall ch :: UniqueCall(w.db.calls, ch)
    ensures forall c :: c in w.db.calls && w.db.calls[c].endAt == 0 ==>
              1 <= |SessionsOf(w.db.sessions, c)| && (limit != 0 ==> |SessionsOf(w.db.sessions, c)| <= limit)
    ensures forall c :: c in w.db.calls && w.db.calls[c].endAt != 0 ==> SessionsOf(w.db.sessions, c) == map[]
    ensures forall c :: Starts(w.log, c) == if c in w.db.calls then 1 else 0
  {
    ReachableInv(w, limit);
    forall c | c in w.db.calls
      ensures CallOK(w.db.calls[c], SessionsOf(w.db.sessions, c), w.joined[c], limit)
    {
    }
  }

  /** Participants: while the call is active exactly the users, other than the bot, who ever joined it; once it has
      ended, a list of the same users without repetition, whether the last leave or a cleanup ended it. */
  lemma ParticipantsHistory(w: World, limit: nat, c: ID)
    requires Reachable(w, limit) && c in w.db.calls
    ensures c in w.joined
    ensures w.db.calls[c].endAt == 0 ==> w.db.calls[c].props.participants == w.joined[c]
    ensures w.db.calls[c].endAt != 0 ==> Enumerates(w.db.calls[c].participants, w.joined[c])
  {
    ReachableInv(w, limit);
    assert CallOK(w.db.calls[c], SessionsOf(w.db.sessions, c), w.joined[c], limit);
  }

  /** Nothing touches the record of an ended call: it is not rejoined, not ended again and not rewritten. */
  lemma EndedCallFrozen(w: World, limit: nat, s: Step, c: ID)
    requires Inv(w, limit) && Enabled(w, limit, s)
    requires c in w.db.calls && w.db.calls[c].endAt != 0
    ensures var w' := Next(w, limit, s);
            c in w'.db.calls && w'.db.calls[c] == w.db.calls[c] && w'.joined[c] == w.joined[c]
            && SessionsOf(w'.db.sessions, c) == map[]
  {
    var w' := Next(w, limit, s);
    EndedRowKept(w, limit, s, c);
    StepKeeps(w, limit, s);
    assert CallOK(w'.db.calls[c], SessionsOf(w'.db.sessions, c), w'.joined[c], limit);
  }

  ghost predicate RowKept(w: World, w': World, c: ID)
    requires c in w.db.calls && c in w.joined
  {
    c in w'.db.calls && w'.db.calls[c] == w.db.calls[c] && c in w'.joined && w'.joined[c] == w.joined[c]
  }

  lemma EndedRowKept(w: World, limit: nat, s: Step, c: ID)
    requires Inv(w, limit) && Enabled(w, limit, s)
    requires c in w.db.calls && w.db.calls[c].endAt != 0
    ensures RowKept(w, Next(w, limit, s), c)
  {
    var w' := Next(w, limit, s);
    match s {
      case Join(a) => JoinRowKept(w, limit, a, c);
      case Leave(l) => LeaveRowKept(w, limit, l, c);
      case MakeHost(_, _, _, _) => HostRowKept(w, limit, s, c);
      case AskEnd(_, _, _) => assert w'.db.calls == w.db.calls;
      case Emit(_, _, _, _, _) => assert w'.db.calls == w.db.calls;
      case Resend(_, _) => assert w'.db.calls == w.db.calls;
      case Dismiss(_, _) => DismissFrame(w, limit, s, c);
      case SendMedia(_, _, _, _, _) => assert w'.db.calls == w.db.calls;
      case Share(_, _, _, _, _) => ShareRowKept(w, limit, s, c);
      case RunJob(_, _) => assert w'.db.calls == w.db.calls;
      case Clean(x, now, keys) => if x == c { UpdateIsWrite(w.db.calls, w.db.calls[c]); }
    }
  }

  lemma JoinRowKept(w: World, limit: nat, a: JoinArgs, c: ID)
    requires Inv(w, limit) && Enabled(w, limit, Join(a)) && c in w.db.calls && w.db.calls[c].endAt != 0
    ensures RowKept(w, Next(w, limit, Join(a)), c)
  {
    if Joined(ReadState(w.db, a.channelID), w.db, limit, a) {
      BaseFacts(w, limit, a);
      NewCallIffSingleSession(w, limit, a);
    }
  }

  lemma LeaveRowKept(w: World, limit: nat, l: LeaveArgs, c: ID)
    requires Inv(w, limit) && Enabled(w, limit, Leave(l)) && c in w.db.calls && w.db.calls[c].endAt != 0
    ensures RowKept(w, Next(w, limit, Leave(l)), c)
  {
    if Leaves(ReadState(w.db, l.channelID), l) {
      ReadFacts(w, limit, l.channelID);
      LeaveShape(w, limit, l);
    }
  }

  lemma HostRowKept(w: World, limit: nat, s: Step, c: ID)
    requires Inv(w, limit) && s.MakeHost? && Enabled(w, limit, s) && c in w.db.calls && w.db.calls[c].endAt != 0
    ensures RowKept(w, Next(w, limit, s), c)
  {
    ReadFacts(w, limit, s.channelID);
  }

  lemma ShareRowKept(w: World, limit: nat, s: Step, c: ID)
    requires Inv(w, limit) && s.Share? && Enabled(w, limit, s) && c in w.db.calls && w.db.calls[c].endAt != 0
    ensures RowKept(w, Next(w, limit, s), c)
  {
    ReadFacts(w, limit, s.channelID);
  }

  lemma {:induction false} EndedCallFrozenForever(w: World, limit: nat, steps: seq<Step>, c: ID)
    requires Inv(w, limit) && ValidRun(w, limit, steps)
    requires c in w.db.calls && w.db.calls[c].endAt != 0
    ensures var w' := Run(w, limit, steps); c in w'.db.calls && w'.db.calls[c] == w.db.calls[c]
    decreases |steps|
  {
    if steps != [] {
      StepKeeps(w, limit, steps[0]);
      EndedCallFrozen(w, limit, steps[0], c);
      EndedCallFrozenForever(Next(w, limit, steps[0]), limit, steps[1..], c);
    }
  }

  /** A session is announced as gone at most once over the whole run, and only when it is no longer in the call. */
  lemma DepartsOnce(w: World, limit: nat, s: ID)
    requires Reachable(w, limit)
    ensures Departures(w.log, s) <= 1
    ensures Departures(w.log, s) == 1 ==> s !in w.db.sessions && s in w.conns
  {
    ReachableInv(w, limit);
  }

  /** Removing a session a second time, by whichever trigger, changes nothing and announces nothing. */
  lemma RemovalIsIdempotent(w: World, limit: nat, l: LeaveArgs, again: LeaveArgs)
    requires Inv(w, limit) && Enabled(w, limit, Leave(l))
    requires again.originalConnID == l.originalConnID && again.channelID == l.channelID && again.now > 0
    ensures var w' := Next(w, limit, Leave(l));
            RemoveUserSession(ReadState(w'.db, again.channelID), w'.db, again) == LeaveOutcome(ReadState(w'.db, again.channelID), w'.db, [])
  {
    var w' := Next(w, limit, Leave(l));
    StepKeeps(w, limit, Leave(l));
    ReadFacts(w', limit, l.channelID);
    if Leaves(ReadState(w.db, l.channelID), l) {
      LeaveShape(w, limit, l);
    } else {
      assert w'.db == w.db;
    }
  }

  /** What a step may do to session x: a join brings it in, muted and with its hand down; its own leave or the cleaning of
      its call takes it out; its own media message changes it; and nothing else does anything to it. */
  ghost predicate SessionMoves(w: World, w': World, s: Step, x: ID) {
    var before, after := w.db.sessions, w'.db.sessions;
    && (x in after && x !in before ==>
          s.Join? && s.join.connID == x && after[x] == Session(x, after[x].callID, s.join.userID, s.join.now, false, 0, false)
          && after[x].callID in w'.db.calls && w'.db.calls[after[x].callID].channelID == s.join.channelID)
    && (x in before && x !in after ==>
          (s.Leave? && s.leave.originalConnID == x) || (s.Clean? && s.callID == before[x].callID))
    && (x in before && x in after && after[x] != before[x] ==>
          s.SendMedia? && s.sessionID == x && before[x].callID in w.db.calls
          && w.db.calls[before[x].callID].channelID == s.channelID
          && after[x] == WithMedia(before[x], s.media, s.now))
  }

  lemma SessionsChangeOnly(w: World, limit: nat, s: Step, x: ID)
    requires Inv(w, limit) && Enabled(w, limit, s)
    ensures SessionMoves(w, Next(w, limit, s), s, x)
  {
    var w' := Next(w, limit, s);
    match s {
      case Join(a) => JoinMoves(w, limit, a, x);
      case Leave(l) => LeaveMoves(w, limit, l, x);
      case SendMedia(_, _, _, _, _) => MediaMoves(w, limit, s, x);
      case MakeHost(_, _, _, _) => assert w'.db.sessions == w.db.sessions;
      case Share(_, _, _, _, _) => assert w'.db.sessions == w.db.sessions;
      case AskEnd(_, _, _) => assert w'.db == w.db;
      case Emit(_, _, _, _, _) => assert w'.db == w.db;
      case Resend(_, _) => assert w'.db == w.db;
      case Dismiss(_, _) => assert w'.db.sessions == w.db.sessions;
      case RunJob(_, _) => assert w'.db.sessions == w.db.sessions;
      case Clean(_, _, _) =>
    }
  }

  lemma JoinMoves(w: World, limit: nat, a: JoinArgs, x: ID)
    requires Inv(w, limit) && Enabled(w, limit, Join(a))
    ensures SessionMoves(w, Next(w, limit, Join(a)), Join(a), x)
  {
    if Joined(ReadState(w.db, a.channelID), w.db, limit, a) {
      BaseFacts(w, limit, a);
      NewCallIffSingleSession(w, limit, a);
    }
  }

  lemma LeaveMoves(w: World, limit: nat, l: LeaveArgs, x: ID)
    requires Inv(w, limit) && Enabled(w, limit, Leave(l))
    ensures SessionMoves(w, Next(w, limit, Leave(l)), Leave(l), x)
  {
    if Leaves(ReadState(w.db, l.channelID), l) { LeaveShape(w, limit, l); }
  }

  lemma MediaMoves(w: World, limit: nat, s: Step, x: ID)
    requires Inv(w, limit) && Enabled(w, limit, s) && s.SendMedia?
    ensures SessionMoves(w, Next(w, limit, s), s, x)
  {
    ReadFacts(w, limit, s.channelID);
  }

  /** In every reachable world a call has at most one running recording and one running transcription. */
  lemma JobsAreUnique(w: World, limit: nat, c: ID)
    requires Reachable(w, limit)
    ensures UniqueJob(w.db.jobs, c, Recording) && UniqueJob(w.db.jobs, c, Transcribing)
  {
    ReachableInv(w, limit);
  }

  /** From any reachable world on, an ended job never runs again, and the service job ID of a recording or a
      transcription, once written, stays. */
  lemma JobsNeverRevert(w: World, limit: nat, steps: seq<Step>, j: ID)
    requires Reachable(w, limit) && ValidRun(w, limit, steps) && j in w.db.jobs
    ensures var w' := Run(w, limit, steps);
            && j in w'.db.jobs
            && (w.db.jobs[j].endAt != 0 ==> w'.db.jobs[j].endAt != 0)
            && (w.db.jobs[j].jtype != Captioning && w.db.jobs[j].jobID != NONE ==> w'.db.jobs[j].jobID == w.db.jobs[j].jobID)
  {
    ReachableInv(w, limit);
    RunKeeps(w, limit, steps);
    assert RowEvolves(w.db.jobs[j], Run(w, limit, steps).db.jobs[j]);
  }
}
