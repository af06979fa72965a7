/** The operations that update the shared call state in place (server/session.go, server/recording_api.go,
    server/transcription_api.go), against the functions of CallSessions and CallJobs. */
module CallHandlers {
  import opened CallModel
  import opened CallStore
  import opened CallJobs
  import opened CallHeap

  /** The database connection. While it is healthy every write succeeds; otherwise any write may fail. `written`
      lists the job rows written, in order. */
  class Database {
    var data: Store
    var written: seq<ID>
    const healthy: bool

    constructor (data: Store, healthy: bool)
      ensures this.data == data && written == [] && this.healthy == healthy
    {
      this.data, written, this.healthy := data, [], healthy;
    }

    method UpdateCallJob(j: Job) returns (ok: bool)
      modifies this
      ensures healthy ==> ok
      ensures ok ==> data == old(data).(jobs := UpdateJob(old(data).jobs, j)) && written == old(written) + [j.id]
      ensures !ok ==> data == old(data) && written == old(written)
    {
      ok := *;
      ok := ok || healthy;
      if ok { data, written := data.(jobs := UpdateJob(data.jobs, j)), written + [j.id]; }
    }

    method CreateCallJob(j: Job) returns (ok: bool)
      modifies this
      ensures healthy && j.id !in old(data).jobs ==> ok
      ensures ok ==> j.id !in old(data).jobs && data == old(data).(jobs := InsertJob(old(data).jobs, j))
      ensures !ok ==> data == old(data)
      ensures written == old(written)
    {
      ok := *;
      ok := (ok || healthy) && j.id !in data.jobs;
      if ok { data := data.(jobs := InsertJob(data.jobs, j)); }
    }

    method DeleteCallsSessions(callID: ID) returns (ok: bool)
      modifies this
      ensures healthy ==> ok
      ensures data == if ok then old(data).(sessions := SessionsOfOthers(old(data).sessions, callID)) else old(data)
      ensures written == old(written)
    {
      ok := *;
      ok := ok || healthy;
      if ok { data := data.(sessions := SessionsOfOthers(data.sessions, callID)); }
    }

    method CreateCall(c: Call) returns (ok: bool)
      modifies this
      ensures healthy && c.id !in old(data).calls ==> ok
      ensures ok ==> c.id !in old(data).calls && data == old(data).(calls := InsertCall(old(data).calls, c))
      ensures !ok ==> data == old(data)
      ensures written == old(written)
    {
      ok := *;
      ok := (ok || healthy) && c.id !in data.calls;
      if ok { data := data.(calls := InsertCall(data.calls, c)); }
    }

    method UpdateCallRow(c: Call) returns (ok: bool)
      modifies this
      ensures healthy ==> ok
      ensures data == if ok then old(data).(calls := UpdateCall(old(data).calls, c)) else old(data)
      ensures written == old(written)
    {
      ok := *;
      ok := ok || healthy;
      if ok { data := data.(calls := UpdateCall(data.calls, c)); }
    }

    method CreateCallSession(s: Session) returns (ok: bool)
      modifies this
      ensures healthy ==> ok
      ensures data == if ok then old(data).(sessions := old(data).sessions[s.id := s]) else old(data)
      ensures written == old(written)
    {
      ok := *;
      ok := ok || healthy;
      if ok { data := data.(sessions := data.sessions[s.id := s]); }
    }

    method UpdateCallSession(s: Session) returns (ok: bool)
      modifies this
      ensures healthy ==> ok
      ensures data == if ok then old(data).(sessions := UpdateSession(old(data).sessions, s)) else old(data)
      ensures written == old(written)
    {
      ok := *;
      ok := ok || healthy;
      if ok { data := data.(sessions := UpdateSession(data.sessions, s)); }
    }

    method DeleteCallSession(s: ID) returns (ok: bool)
      modifies this
      ensures healthy ==> ok
      ensures data == if ok then old(data).(sessions := old(data).sessions - {s}) else old(data)
      ensures written == old(written)
    {
      ok := *;
      ok := ok || healthy;
      if ok { data := data.(sessions := data.sessions - {s}); }
    }
  }

  function IDs(j: Option<Job>): seq<ID> {
    if j.Some? then [j.value.id] else []
  }

  ghost function Live(c: LiveCall): nat
    reads c, c.recording, c.transcription, c.liveCaptions
  {
    ActiveCount(c.JobsValue())
  }

  /** stopRecordingJob. `fails` holds the jobs the job service would refuse to stop. Both jobs end and each row is
      written once; a refusal is reported but undoes nothing. */
  method StopRecordingJob(c: LiveCall, db: Database, fails: set<ID>, now: nat) returns (ok: bool)
    requires c.Valid() && db !in c.Repr && db.healthy && now > 0
    modifies c.recording, c.transcription, c.liveCaptions, db
    ensures var j, r := old(c.JobsValue()), c.JobsValue();
            if !Running(j.recording) then !ok && r == j && db.data == old(db.data) && db.written == old(db.written)
            else
              && (ok <==> j.recording.value.id !in fails)
              && !Running(r.recording) && !Running(r.transcription)
              && db.written == old(db.written) + IDs(j.recording)
                               + (if Running(j.transcription) then IDs(j.transcription) + IDs(j.liveCaptions) else [])
              && db.data == old(db.data).(jobs := StopRecording(j, old(db.data).jobs, now).rows)
              && r == TryStopRecording(j, old(db.data).jobs, fails, now).jobs
              && (fails == {} ==> r == StopRecording(j, old(db.data).jobs, now).jobs)
    decreases Live(c)
  {
    if c.recording == null || c.recording.endAt != 0 { return false; }
    c.recording.endAt := now;
    var _ := db.UpdateCallJob(c.recording.Value());
    if c.transcription != null && c.transcription.endAt == 0 {
      var _ := StopTranscribingJob(c, db, fails, now);
    }
    if c.recording.id in fails {
      c.recording.err := REC_REFUSED;
      return false;
    }
    return true;
  }

  /** stopTranscribingJob. A refusal by the job service returns before the recording is reached. */
  method StopTranscribingJob(c: LiveCall, db: Database, fails: set<ID>, now: nat) returns (ok: bool)
    requires c.Valid() && db !in c.Repr && db.healthy && now > 0
    modifies c.recording, c.transcription, c.liveCaptions, db
    ensures var j, r := old(c.JobsValue()), c.JobsValue();
            if !Running(j.transcription) then !ok && r == j && db.data == old(db.data) && db.written == old(db.written)
            else
              && (ok <==> j.transcription.value.id !in fails)
              && !Running(r.transcription)
              && (Running(r.recording) <==> Running(j.recording) && j.transcription.value.id in fails)
              && db.written == old(db.written) + IDs(j.transcription) + IDs(j.liveCaptions)
                               + (if Running(j.recording) && ok then IDs(j.recording) else [])
              && (!Running(j.recording) || ok ==> db.data == old(db.data).(jobs := StopTranscribing(j, old(db.data).jobs, now).rows))
              && JobsDb(r, db.data.jobs) == TryStopTranscribing(j, old(db.data).jobs, fails, now)
              && (fails == {} ==> r == StopTranscribing(j, old(db.data).jobs, now).jobs)
              && (!Running(j.recording) ==> r.recording == j.recording)
    decreases Live(c)
  {
    if c.transcription == null || c.transcription.endAt != 0 { return false; }
    c.transcription.endAt := now;
    var _ := db.UpdateCallJob(c.transcription.Value());
    if c.liveCaptions != null {
      c.liveCaptions.endAt := now;
      var _ := db.UpdateCallJob(c.liveCaptions.Value());
    }
    if c.transcription.id in fails {
      c.transcription.err := TR_REFUSED;
      return false;
    }
    if c.recording != null && c.recording.endAt == 0 {
      var _ := StopRecordingJob(c, db, fails, now);
    }
    return true;
  }
}
