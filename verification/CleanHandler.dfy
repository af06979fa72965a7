/** cleanCallState on the heap (server/state.go): on a fresh record, under the call lock, as its comment asks. */
module CleanHandler {
  import opened CallModel
  import opened CallStore
  import opened CallJobs
  import opened JobSafety
  import S = CallSessions
  import opened CallHeap
  import opened CallHandlers
  import opened JoinHandler
  import opened LeaveHandler

  /** Ending every job the query returned is ending their rows. */
  lemma EndAllByRow(j: Jobs, rows: map<ID, Job>, now: nat)
    requires Backed(j, rows) && DistinctIDs(j) && now > 0
    ensures EndAll(j, rows, now) ==
            EndRows(rows, IDOf(j.recording, Running(j.recording)) + IDOf(j.transcription, Running(j.transcription))
                          + IDOf(j.liveCaptions, Running(j.liveCaptions)), now)
  {
  }

  function IDsOf(jobs: set<CallJob>): set<ID> {
    set j | j in jobs :: j.id
  }

  ghost predicate JobsRunIn(jobs: set<CallJob>, rows: map<ID, Job>)
    reads jobs
  {
    && (forall j :: j in jobs ==> j.endAt == 0 && j.id in rows && rows[j.id] == j.Value())
    && forall j, k :: j in jobs && k in jobs && j != k ==> j.id != k.id
  }

  lemma OneMoreRow(rows: map<ID, Job>, ids: set<ID>, id: ID, now: nat)
    requires id in rows && rows[id].id == id && id !in ids
    ensures EndRows(rows, ids + {id}, now) == UpdateJob(EndRows(rows, ids, now), rows[id].(endAt := now))
  {
  }

  method EndJob(job: CallJob, db: Database, now: nat)
    requires db.healthy
    modifies job, db
    ensures db.data == if old(job.endAt) == 0 then old(db.data).(jobs := UpdateJob(old(db.data).jobs, old(job.Value()).(endAt := now))) else old(db.data)
  {
    if job.endAt == 0 {
      job.endAt := now;
      var _ := db.UpdateCallJob(job.Value());
    }
  }

  /** The loop over the running jobs, in whatever order the map yields them. */
  method EndJobs(jobs: set<CallJob>, db: Database, now: nat)
    requires db.healthy
    requires JobsRunIn(jobs, db.data.jobs)
    modifies jobs, db
    ensures db.data == old(db.data).(jobs := EndRows(old(db.data).jobs, IDsOf(jobs), now))
  {
    ghost var rows, done := db.data.jobs, {};
    var rest := jobs;
    assert rows == EndRows(rows, {}, now);
    while exists j :: j in rest
      invariant rest <= jobs && done == IDsOf(jobs - rest)
      invariant forall j :: j in rest ==> j.endAt == 0 && j.Value() == rows[j.id] && j.id !in done
      invariant db.data == old(db.data).(jobs := EndRows(rows, done, now))
      decreases |rest|
    {
      var job :| job in rest;
      EndJob(job, db, now);
      OneMoreRow(rows, done, job.id, now);
      assert jobs - (rest - {job}) == (jobs - rest) + {job};
      done, rest := done + {job.id}, rest - {job};
    }
    assert jobs - rest == jobs;
  }

  /** What the query returned, as a collection of jobs. */
  function Collected(c: LiveCall): set<CallJob>
    reads c`recording, c`transcription, c`liveCaptions
  {
    (if c.recording != null then {c.recording} else {}) + (if c.transcription != null then {c.transcription} else {})
    + (if c.liveCaptions != null then {c.liveCaptions} else {})
  }

  lemma CollectedIDs(c: LiveCall)
    ensures var j := c.JobsValue();
            IDsOf(Collected(c)) == IDOf(j.recording, true) + IDOf(j.transcription, true) + IDOf(j.liveCaptions, true)
  {
  }

  /** setCallEnded, unless the call has ended already. */
  method EndRecord(c: LiveCall, now: nat) returns (keys: seq<ID>)
    requires c.Valid()
    modifies c`call, c`Repr
    ensures c.Valid() && fresh(c.Repr - old(c.Repr)) && c.JobsValue() == old(c.JobsValue())
    ensures var call := old(c.call.Value());
            && Enumerates(keys, call.props.participants)
            && c.call.Value() == if call.endAt == 0 then S.SetCallEnded(call, now, keys) else call
  {
    keys := MapKeys(c.call.Value().props.participants);
    if c.call.endAt == 0 { SetEnded(c, now, keys); }
  }

  /** The sessions go, the running jobs end, the call's row is written. */
  method EndRest(row: Call, jobs: set<CallJob>, db: Database, now: nat)
    requires db.healthy
    requires JobsRunIn(jobs, db.data.jobs)
    modifies jobs, db
    ensures db.data == Store(UpdateCall(old(db.data).calls, row), SessionsOfOthers(old(db.data).sessions, row.id),
                             EndRows(old(db.data).jobs, IDsOf(jobs), now))
  {
    var _ := db.DeleteCallsSessions(row.id);
    EndJobs(jobs, db, now);
    var _ := db.UpdateCallRow(row);
  }

  /** What the query returned are running jobs, and ending their rows is what ending all of them means. */
  lemma FreshJobs(c: LiveCall, rows: map<ID, Job>, callID: ID, now: nat)
    requires JobsKeyed(rows) && c.JobsValue() == JobsOf(rows, callID) && now > 0
    ensures JobsRunIn(Collected(c), rows)
    ensures EndRows(rows, IDsOf(Collected(c)), now) == EndAll(JobsOf(rows, callID), rows, now)
  {
    JobsOfBacked(rows, callID);
    var j := c.JobsValue();
    assert c.recording != null ==> j.recording == Some(c.recording.Value());
    assert c.transcription != null ==> j.transcription == Some(c.transcription.Value());
    assert c.liveCaptions != null ==> j.liveCaptions == Some(c.liveCaptions.Value());
    EndAllByRow(j, rows, now);
    CollectedIDs(c);
  }

  method CleanWith(c: LiveCall, jobs: set<CallJob>, db: Database, now: nat) returns (keys: seq<ID>)
    requires c.Valid() && db.healthy && JobsRunIn(jobs, db.data.jobs)
    modifies c`call, c`Repr, jobs, db
    ensures var call := old(c.call.Value());
            && Enumerates(keys, call.props.participants)
            && db.data == Store(UpdateCall(old(db.data).calls, if call.endAt == 0 then S.SetCallEnded(call, now, keys) else call),
                                SessionsOfOthers(old(db.data).sessions, call.id), EndRows(old(db.data).jobs, IDsOf(jobs), now))
  {
    keys := EndRecord(c, now);
    EndRest(c.call.Value(), jobs, db, now);
  }

  /** The call is ended unless it was, its sessions are deleted and its running jobs end. */
  method CleanCallState(c: LiveCall, db: Database, now: nat) returns (keys: seq<ID>)
    requires c.Valid() && db.healthy && now > 0
    requires c.call.id in db.data.calls && db.data.calls[c.call.id] == c.call.Value()
    requires JobsKeyed(db.data.jobs) && c.JobsValue() == JobsOf(db.data.jobs, c.call.id)
    modifies c`call, c`Repr, Collected(c), db
    ensures Enumerates(keys, old(c.call.Value()).props.participants)
    ensures db.data == S.CleanCall(old(db.data), old(c.call.id), now, keys)
  {
    FreshJobs(c, db.data.jobs, c.call.id, now);
    keys := CleanWith(c, Collected(c), db, now);
  }
}
