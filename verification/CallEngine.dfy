/** Whole runs of the call engine: any interleaving, over any number of channels, of the operations that run
    under a call lock. The lock makes each of them one step; starting a job is two steps with a gap between. Voice and
    reactions are published without the lock, at any moment, to the users of a read that may be out of date by then. */
module CallEngine {
  import opened CallModel
  import opened CallStore
  import opened CallJobs
  import opened JobSafety
  import opened CallSessions

  datatype Step =
    | Join(join: JoinArgs)
    | Leave(leave: LeaveArgs)
    | MakeHost(channelID: ID, requesterID: ID, isAdmin: bool, newHostID: ID)
    | AskEnd(channelID: ID, requesterID: ID, isAdmin: bool)
    | SendMedia(channelID: ID, userID: ID, sessionID: ID, media: Media, now: nat)
    | Share(channelID: ID, userID: ID, sessionID: ID, on: bool, now: nat)
    | Emit(channelID: ID, userID: ID, sessionID: ID, signal: Signal, read: set<ID>)
    | Resend(channelID: ID, userID: ID)
    | Dismiss(channelID: ID, userID: ID)
    | RunJob(channelID: ID, job: JobStep)
    | Clean(callID: ID, now: nat, keys: seq<ID>)

  /** The database, and what has happened so far: the connections that joined, who joined which call, and the
      published messages. */
  datatype World = World(
    db: Store, conns: set<ID>, joined: map<ID, set<ID>>, log: seq<Msg>, recGaps: nat, trGaps: nat)

  const EMPTY := World(Store(map[], map[], map[]), {}, map[], [], 0, 0)

  // ----- steps -----

  /** The operation can be called with these arguments: clocks are positive, new identifiers are fresh,
      connection IDs are unique, and map iteration yields what it may yield. */
  ghost predicate Enabled(w: World, limit: nat, s: Step) {
    match s
    case Join(a) =>
      var st := ReadState(w.db, a.channelID);
      && a.now > 0 && a.userID != NONE && a.connID != NONE && a.connID !in w.conns
      && a.newCallID != NONE && a.newCallID !in w.db.calls
      && (Joined(st, w.db, limit, a) ==> JoinChoice(st, a))
    case Leave(l) =>
      var st := ReadState(w.db, l.channelID);
      && l.now > 0 && l.userID != NONE
      && (Leaves(st, l) ==>
            && st.value.sessions[l.originalConnID].userID == l.userID
            && LeaveChoices(st.value, l))
    case MakeHost(_, _, _, _) => true
    case AskEnd(_, _, _) => true
    case SendMedia(ch, userID, sessionID, _, now) =>
      var st := ReadState(w.db, ch);
      && now > 0
      && (st.Some? && sessionID in st.value.sessions ==> st.value.sessions[sessionID].userID == userID)
    case Share(_, userID, sessionID, _, _) => sessionID != NONE && userID != NONE
    case Emit(_, _, _, _, _) => true
    case Resend(_, _) => true
    case Dismiss(_, _) => true
    case RunJob(_, js) => JobEnabled(JobTable(w.db.jobs, w.recGaps, w.trGaps), js)
    case Clean(callID, now, keys) =>
      now > 0 && (callID in w.db.calls && w.db.calls[callID].endAt == 0 ==> Enumerates(keys, w.db.calls[callID].props.participants))
  }

  /** The messages a step publishes about calls. */
  ghost function Published(w: World, limit: nat, s: Step): seq<Msg>
    requires Enabled(w, limit, s)
  {
    match s
    case Join(a) => JoinCall(ReadState(w.db, a.channelID), w.db, limit, a).msgs
    case Leave(l) => RemoveUserSession(ReadState(w.db, l.channelID), w.db, l).msgs
    case MakeHost(ch, r, admin, h) => ChangeHost(ReadState(w.db, ch), w.db, ch, r, admin, h).msgs
    case AskEnd(ch, r, admin) => HostEnd(ReadState(w.db, ch), ch, r, admin)
    case SendMedia(ch, u, sid, m, now) => HandleMedia(ReadState(w.db, ch), w.db, ch, u, sid, m, now).msgs
    case Share(ch, u, sid, on, now) => HandleScreen(ReadState(w.db, ch), w.db, ch, u, sid, on, now).msgs
    case Emit(ch, u, sid, x, read) => [Publish(ch, SignalEvent(u, sid, x), read)]
    case Resend(ch, u) => ResendState(ReadState(w.db, ch), ch, u)
    case Dismiss(_, _) => []
    case RunJob(_, _) => []
    case Clean(_, _, _) => []
  }

  ghost function AfterJoin(w: World, limit: nat, a: JoinArgs): World {
    var st := ReadState(w.db, a.channelID);
    if !Joined(st, w.db, limit, a) then w
    else
      var o := JoinCall(st, w.db, limit, a);
      var c := o.state.value.call.id;
      var before := if c in w.joined then w.joined[c] else {};
      w.(db := o.db, conns := w.conns + {a.connID},
         joined := w.joined[c := if a.userID != BOT then before + {a.userID} else before])
  }

  ghost function AfterJob(w: World, channelID: ID, js: JobStep): World
    requires JobEnabled(JobTable(w.db.jobs, w.recGaps, w.trGaps), js)
  {
    var t := JobTable(w.db.jobs, w.recGaps, w.trGaps);
    match ReadState(w.db, channelID)
    case Some(st) =>
      var t' := RunJobStep(t, st.call, st.jobs, js);
      w.(db := w.db.(jobs := t'.rows), recGaps := t'.rec, trGaps := t'.tr)
    case None =>
      w.(recGaps := if js.RecReturns? then w.recGaps - 1 else w.recGaps,
         trGaps := if js.TrReturns? then w.trGaps - 1 else w.trGaps)
  }

  ghost function Next(w: World, limit: nat, s: Step): World
    requires Enabled(w, limit, s)
  {
    var w' := match s
      case Join(a) => AfterJoin(w, limit, a)
      case Leave(l) => w.(db := RemoveUserSession(ReadState(w.db, l.channelID), w.db, l).db)
      case MakeHost(ch, r, admin, h) => w.(db := ChangeHost(ReadState(w.db, ch), w.db, ch, r, admin, h).db)
      case AskEnd(_, _, _) => w
      case SendMedia(ch, u, sid, m, now) => w.(db := HandleMedia(ReadState(w.db, ch), w.db, ch, u, sid, m, now).db)
      case Share(ch, u, sid, on, now) => w.(db := HandleScreen(ReadState(w.db, ch), w.db, ch, u, sid, on, now).db)
      case Emit(_, _, _, _, _) => w
      case Resend(_, _) => w
      case Dismiss(ch, u) => w.(db := DismissCall(ReadState(w.db, ch), w.db, u))
      case RunJob(ch, js) => AfterJob(w, ch, js)
      case Clean(c, now, keys) => w.(db := CleanCall(w.db, c, now, keys));
    w'.(log := w.log + Published(w, limit, s))
  }

  ghost predicate ValidRun(w: World, limit: nat, steps: seq<Step>)
    decreases |steps|
  {
    steps == [] || (Enabled(w, limit, steps[0]) && ValidRun(Next(w, limit, steps[0]), limit, steps[1..]))
  }

  ghost function Run(w: World, limit: nat, steps: seq<Step>): World
    requires ValidRun(w, limit, steps)
    decreases |steps|
  {
    if steps == [] then w else Run(Next(w, limit, steps[0]), limit, steps[1..])
  }

  /** One more step at the end of a run. */
  lemma {:induction false} RunSnoc(w: World, limit: nat, steps: seq<Step>, s: Step)
    requires ValidRun(w, limit, steps) && Enabled(Run(w, limit, steps), limit, s)
    ensures ValidRun(w, limit, steps + [s]) && Run(w, limit, steps + [s]) == Next(Run(w, limit, steps), limit, s)
    decreases |steps|
  {
    var all := steps + [s];
    if steps == [] {
      assert all == [s] && all[1..] == [];
    } else {
      assert all[0] == steps[0] && all[1..] == steps[1..] + [s];
      RunSnoc(Next(w, limit, steps[0]), limit, steps[1..], s);
    }
  }

  // ----- the invariant -----

  /** With someone but the bot in the call, the host is one of them, else there is none; a locked user who is
      present is the host. */
  ghost predicate HostOK(call: Call, sessions: map<ID, Session>) {
    var h := call.HostID();
    var locked := call.props.hostLockedUserID;
    && (if SomeoneInCall(sessions) then h != BOT && InCall(sessions, h) else h == NONE)
    && (locked != NONE && InCall(sessions, locked) ==> h == locked)
    && locked != BOT
  }

  /** One call against its sessions, the users who ever joined it, and the participants limit. */
  ghost predicate CallOK(call: Call, sessions: map<ID, Session>, everJoined: set<ID>, limit: nat) {
    if call.endAt == 0 then
      && |sessions| >= 1 && (limit != 0 ==> |sessions| <= limit)
      && HostOK(call, sessions)
      && call.props.participants == everJoined
    else
      && sessions == map[]
      && Enumerates(call.participants, everJoined)
  }

  ghost predicate TablesOK(db: Store) {
    && CallsKeyed(db.calls) && JobsKeyed(db.jobs)
    && (forall c :: c in db.calls ==> c != NONE && db.calls[c].startAt > 0)
    && (forall s :: s in db.sessions ==>
          var x := db.sessions[s];
          s != NONE && x.id == s && x.userID != NONE && x.callID in db.calls)
  }

  function Starts(log: seq<Msg>, callID: ID): nat {
    if log == [] then 0
    else Starts(log[..|log| - 1], callID) + (if log[|log| - 1].ev.CallStart? && log[|log| - 1].ev.callID == callID then 1 else 0)
  }

  function Departures(log: seq<Msg>, sessionID: ID): nat {
    if log == [] then 0
    else Departures(log[..|log| - 1], sessionID) + (if log[|log| - 1].ev.UserLeft? && log[|log| - 1].ev.sessionID == sessionID then 1 else 0)
  }

  ghost predicate LogOK(w: World) {
    && (forall c :: Starts(w.log, c) == if c in w.db.calls then 1 else 0)
    && (forall s :: s in w.db.sessions || s !in w.conns ==> Departures(w.log, s) == 0)
    && (forall s :: Departures(w.log, s) <= 1)
    && (forall s :: s in w.db.sessions ==> s in w.conns)
  }

  ghost predicate CallsOK(w: World, limit: nat) {
    && w.joined.Keys == w.db.calls.Keys
    && (forall ch :: UniqueCall(w.db.calls, ch))
    && forall c :: c in w.db.calls ==> CallOK(w.db.calls[c], SessionsOf(w.db.sessions, c), w.joined[c], limit)
  }

  ghost predicate Inv(w: World, limit: nat) {
    TablesOK(w.db) && CallsOK(w, limit) && LogOK(w) && OneOfEach(w.db.jobs)
  }

  // ----- counting messages -----

  lemma {:induction false} CountsConcat(a: seq<Msg>, b: seq<Msg>, k: ID)
    ensures Starts(a + b, k) == Starts(a, k) + Starts(b, k)
    ensures Departures(a + b, k) == Departures(a, k) + Departures(b, k)
    decreases |b|
  {
    if b == [] {
      assert a + b == a;
    } else {
      var b1 := b[..|b| - 1];
      assert (a + b)[..|a + b| - 1] == a + b1;
      CountsConcat(a, b1, k);
    }
  }

  /** Messages that neither start a call nor announce a departure. */
  ghost predicate Plain(log: seq<Msg>) {
    forall i :: 0 <= i < |log| ==> !log[i].ev.CallStart? && !log[i].ev.UserLeft?
  }

  lemma {:induction false} PlainCounts(log: seq<Msg>, k: ID)
    requires Plain(log)
    ensures Starts(log, k) == 0 && Departures(log, k) == 0
    decreases |log|
  {
    if log != [] { PlainCounts(log[..|log| - 1], k); }
  }

  lemma PlainKeepsCounts(a: seq<Msg>, b: seq<Msg>)
    requires Plain(b)
    ensures forall k :: Starts(a + b, k) == Starts(a, k) && Departures(a + b, k) == Departures(a, k)
  {
    forall k ensures Starts(a + b, k) == Starts(a, k) && Departures(a + b, k) == Departures(a, k) {
      CountsConcat(a, b, k);
      PlainCounts(b, k);
    }
  }
}
