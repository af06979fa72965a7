/** The database seen by the call engine (server/db): three tables, the queries that rebuild a call state
    from them and the column-wise updates. */
module CallStore {
  import opened CallModel

  datatype Store = Store(calls: map<ID, Call>, sessions: map<ID, Session>, jobs: map<ID, Job>)

  // ----- queries -----

  predicate IsActiveCall(calls: map<ID, Call>, channelID: ID, c: ID) {
    c in calls && calls[c].channelID == channelID && calls[c].endAt == 0 && calls[c].startAt > 0
  }

  predicate CallSortsBefore(a: Call, b: Call) {
    a.startAt > b.startAt || (a.startAt == b.startAt && a.id < b.id)
  }

  ghost predicate IsFirstCall(calls: map<ID, Call>, channelID: ID, c: ID) {
    && IsActiveCall(calls, channelID, c)
    && forall d :: IsActiveCall(calls, channelID, d) && d != c ==> CallSortsBefore(calls[c], calls[d])
  }

  /** GetActiveCallByChannelID: latest start first, then lowest ID. */
  ghost function ActiveCall(calls: map<ID, Call>, channelID: ID): Option<ID> {
    if exists c :: IsFirstCall(calls, channelID, c) then
      var c :| IsFirstCall(calls, channelID, c);
      Some(c)
    else None
  }

  function SessionsOf(sessions: map<ID, Session>, callID: ID): map<ID, Session> {
    map s | s in sessions && sessions[s].callID == callID :: sessions[s]
  }

  function SessionsOfOthers(sessions: map<ID, Session>, callID: ID): map<ID, Session> {
    map s | s in sessions && sessions[s].callID != callID :: sessions[s]
  }

  predicate IsActiveJob(rows: map<ID, Job>, callID: ID, t: JobType, j: ID) {
    j in rows && rows[j].callID == callID && rows[j].jtype == t && rows[j].endAt == 0
  }

  predicate JobSortsBefore(a: Job, b: Job) {
    a.startAt > b.startAt || (a.startAt == b.startAt && a.id < b.id)
  }

  ghost predicate IsFirstJob(rows: map<ID, Job>, callID: ID, t: JobType, j: ID) {
    && IsActiveJob(rows, callID, t, j)
    && forall k :: IsActiveJob(rows, callID, t, k) && k != j ==> JobSortsBefore(rows[j], rows[k])
  }

  /** GetActiveCallJobs keeps one running job per type. */
  ghost function ActiveJob(rows: map<ID, Job>, callID: ID, t: JobType): Option<Job> {
    if exists j :: IsFirstJob(rows, callID, t, j) then
      var j :| IsFirstJob(rows, callID, t, j);
      Some(rows[j])
    else None
  }

  ghost function JobsOf(rows: map<ID, Job>, callID: ID): Jobs {
    Jobs(ActiveJob(rows, callID, Recording), ActiveJob(rows, callID, Transcribing), ActiveJob(rows, callID, Captioning))
  }

  ghost function StateOf(db: Store, callID: ID): CallState
    requires callID in db.calls
  {
    CallState(db.calls[callID], SessionsOf(db.sessions, callID), JobsOf(db.jobs, callID))
  }

  /** getCallState: the state of the channel's active call, if it has one. */
  ghost function ReadState(db: Store, channelID: ID): Option<CallState> {
    match ActiveCall(db.calls, channelID)
    case None => None
    case Some(c) => Some(StateOf(db, c))
  }

  // ----- updates -----

  /** CreateCall is an insert: it fails on an ID that is already there. */
  function InsertCall(calls: map<ID, Call>, call: Call): map<ID, Call> {
    if call.id in calls then calls else calls[call.id := call]
  }

  /** UpdateCall writes these columns of an existing row and no others. */
  function UpdateCall(calls: map<ID, Call>, call: Call): map<ID, Call> {
    if call.id in calls then
      calls[call.id := calls[call.id].(
        endAt := call.endAt, threadID := call.threadID, postID := call.postID,
        participants := call.participants, screenDuration := call.screenDuration, props := call.props)]
    else calls
  }

  function UpdateSession(sessions: map<ID, Session>, s: Session): map<ID, Session> {
    if s.id in sessions then
      sessions[s.id := sessions[s.id].(unmuted := s.unmuted, raisedHand := s.raisedHand, video := s.video)]
    else sessions
  }

  function UpdateJob(rows: map<ID, Job>, job: Job): map<ID, Job> {
    if job.id in rows then
      rows[job.id := rows[job.id].(
        startAt := job.startAt, endAt := job.endAt, jobID := job.jobID, botConnID := job.botConnID, err := job.err)]
    else rows
  }

  // ----- what the queries return under unique rows -----

  ghost predicate JobsKeyed(rows: map<ID, Job>) {
    forall j :: j in rows ==> rows[j].id == j
  }

  ghost predicate UniqueCall(calls: map<ID, Call>, channelID: ID) {
    forall c, d :: IsActiveCall(calls, channelID, c) && IsActiveCall(calls, channelID, d) ==> c == d
  }

  ghost predicate UniqueJob(rows: map<ID, Job>, callID: ID, t: JobType) {
    forall j, k :: IsActiveJob(rows, callID, t, j) && IsActiveJob(rows, callID, t, k) ==> j == k
  }

  lemma ActiveCallIs(calls: map<ID, Call>, channelID: ID, c: ID)
    requires UniqueCall(calls, channelID) && IsActiveCall(calls, channelID, c)
    ensures ActiveCall(calls, channelID) == Some(c)
  {
    assert IsFirstCall(calls, channelID, c);
  }

  lemma ActiveJobIs(rows: map<ID, Job>, callID: ID, t: JobType, j: ID)
    requires UniqueJob(rows, callID, t) && IsActiveJob(rows, callID, t, j)
    ensures ActiveJob(rows, callID, t) == Some(rows[j])
  {
    assert IsFirstJob(rows, callID, t, j);
  }

  /** The minimum of a finite non-empty set of running jobs exists, so the query finds one whenever one runs. */
  lemma {:induction false} FirstJobExists(rows: map<ID, Job>, callID: ID, t: JobType, js: set<ID>) returns (m: ID)
    requires JobsKeyed(rows) && (exists j :: j in js) && forall j :: j in js ==> IsActiveJob(rows, callID, t, j)
    ensures m in js && m in rows
    ensures forall k :: k in js && k in rows && k != m ==> JobSortsBefore(rows[m], rows[k])
    decreases js
  {
    m :| m in js;
    if j :| j in js && j != m {
      assert j in js - {m};
      var n := FirstJobExists(rows, callID, t, js - {m});
      if JobSortsBefore(rows[n], rows[m]) { m := n; }
    }
  }

  /** The job query returns nothing exactly when no job of the type is running, else a running one. */
  lemma ActiveJobFound(rows: map<ID, Job>, callID: ID, t: JobType)
    requires JobsKeyed(rows)
    ensures ActiveJob(rows, callID, t).None? <==> forall j :: !IsActiveJob(rows, callID, t, j)
    ensures var r := ActiveJob(rows, callID, t);
            r.Some? ==> IsActiveJob(rows, callID, t, r.value.id) && rows[r.value.id] == r.value
    ensures var r := ActiveJob(rows, callID, t);
            forall k :: r.Some? && IsActiveJob(rows, callID, t, k) && k != r.value.id ==>
              r.value.startAt > rows[k].startAt || (r.value.startAt == rows[k].startAt && r.value.id < k)
  {
    var js := set j | j in rows && IsActiveJob(rows, callID, t, j);
    if j :| j in js {
      var m := FirstJobExists(rows, callID, t, js);
      assert IsFirstJob(rows, callID, t, m) by {
        forall k | IsActiveJob(rows, callID, t, k) && k != m ensures JobSortsBefore(rows[m], rows[k]) { assert k in js; }
      }
    } else {
      assert forall j :: IsActiveJob(rows, callID, t, j) ==> j in js;
    }
  }

  ghost predicate CallsKeyed(calls: map<ID, Call>) {
    forall c :: c in calls ==> calls[c].id == c
  }

  lemma {:induction false} FirstCallExists(calls: map<ID, Call>, channelID: ID, cs: set<ID>) returns (m: ID)
    requires CallsKeyed(calls) && (exists c :: c in cs) && forall c :: c in cs ==> IsActiveCall(calls, channelID, c)
    ensures m in cs && m in calls
    ensures forall d :: d in cs && d in calls && d != m ==> CallSortsBefore(calls[m], calls[d])
    decreases cs
  {
    m :| m in cs;
    if c :| c in cs && c != m {
      assert c in cs - {m};
      var n := FirstCallExists(calls, channelID, cs - {m});
      if CallSortsBefore(calls[n], calls[m]) { m := n; }
    }
  }

  /** The active-call query returns nothing exactly when the channel has no active call. */
  lemma ActiveCallFound(calls: map<ID, Call>, channelID: ID)
    requires CallsKeyed(calls)
    ensures ActiveCall(calls, channelID).None? <==> forall c :: !IsActiveCall(calls, channelID, c)
    ensures var r := ActiveCall(calls, channelID); r.Some? ==> IsActiveCall(calls, channelID, r.value)
    ensures var r := ActiveCall(calls, channelID);
            forall d :: r.Some? && IsActiveCall(calls, channelID, d) && d != r.value ==>
              calls[r.value].startAt > calls[d].startAt || (calls[r.value].startAt == calls[d].startAt && r.value < d)
  {
    var cs := set c | c in calls && IsActiveCall(calls, channelID, c);
    if c :| c in cs {
      var m := FirstCallExists(calls, channelID, cs);
      assert IsFirstCall(calls, channelID, m) by {
        forall d | IsActiveCall(calls, channelID, d) && d != m ensures CallSortsBefore(calls[m], calls[d]) { assert d in cs; }
      }
    } else {
      assert forall c :: IsActiveCall(calls, channelID, c) ==> c in cs;
    }
  }

  /** Adding a session row adds it to its own call only. */
  lemma SessionsOfInsert(sessions: map<ID, Session>, s: ID, x: Session)
    requires s !in sessions
    ensures SessionsOf(sessions[s := x], x.callID) == SessionsOf(sessions, x.callID)[s := x]
    ensures forall c :: c != x.callID ==> SessionsOf(sessions[s := x], c) == SessionsOf(sessions, c)
  {
    forall c | c != x.callID ensures SessionsOf(sessions[s := x], c) == SessionsOf(sessions, c) {}
  }

  /** Deleting a session row takes it from its own call only. */
  lemma SessionsOfDelete(sessions: map<ID, Session>, s: ID)
    requires s in sessions
    ensures SessionsOf(sessions - {s}, sessions[s].callID) == SessionsOf(sessions, sessions[s].callID) - {s}
    ensures forall c :: c != sessions[s].callID ==> SessionsOf(sessions - {s}, c) == SessionsOf(sessions, c)
  {
    forall c | c != sessions[s].callID ensures SessionsOf(sessions - {s}, c) == SessionsOf(sessions, c) {}
  }

  /** Rewriting a session row within its call. */
  lemma SessionsOfUpdate(sessions: map<ID, Session>, s: ID, x: Session)
    requires s in sessions && x.callID == sessions[s].callID
    ensures SessionsOf(sessions[s := x], x.callID) == SessionsOf(sessions, x.callID)[s := x]
    ensures forall c :: c != x.callID ==> SessionsOf(sessions[s := x], c) == SessionsOf(sessions, c)
  {
    forall c | c != x.callID ensures SessionsOf(sessions[s := x], c) == SessionsOf(sessions, c) {}
  }
}
