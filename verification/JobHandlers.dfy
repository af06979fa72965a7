/** The job operations on the heap (server/recording_api.go, server/transcription_api.go, server/bot_api.go). Each works on
    the state read under the call lock and leaves in the database what its function of the values says. */
module JobHandlers {
  import opened CallModel
  import opened CallStore
  import opened CallJobs
  import opened CallHeap
  import opened CallHandlers

  /** startRecordingJob until it releases the lock: the row is created. */
  method CreateRecording(c: LiveCall, db: Database, userID: ID, rowID: ID, now: nat) returns (ok: bool)
    requires c.Valid() && db !in c.Repr && db.healthy && rowID !in db.data.jobs
    modifies db
    ensures var r := BeginRecording(c.JobsValue(), old(db.data).jobs, c.call.id, rowID, userID, now);
            && (ok <==> r.Some?)
            && db.data == if ok then old(db.data).(jobs := r.value) else old(db.data)
  {
    if c.recording != null && c.recording.endAt == 0 { return false; }
    ok := db.CreateCallJob(NewJob(rowID, c.call.id, Recording, userID, now));
  }

  /** startTranscribingJob until it releases the lock. */
  method CreateTranscription(c: LiveCall, db: Database, userID: ID, rowID: ID, captionsID: Option<ID>, now: nat) returns (ok: bool)
    requires c.Valid() && db !in c.Repr && db.healthy && rowID !in db.data.jobs
    requires captionsID.Some? ==> captionsID.value !in db.data.jobs && captionsID.value != rowID
    modifies db
    ensures var r := BeginTranscribing(c.JobsValue(), old(db.data).jobs, c.call.id, rowID, captionsID, userID, now);
            && (ok <==> r.Some?)
            && db.data == if ok then old(db.data).(jobs := r.value) else old(db.data)
  {
    if c.transcription != null && c.transcription.endAt == 0 { return false; }
    if rowID == NONE { return false; }
    ok := db.CreateCallJob(NewJob(rowID, c.call.id, Transcribing, userID, now));
    if captionsID.Some? {
      ok := db.CreateCallJob(NewJob(captionsID.value, c.call.id, Captioning, userID, now));
    }
  }

  /** handleBotWSReconnect, when the call has a state. */
  method BotReconnected(c: LiveCall, db: Database, prevConnID: ID, connID: ID)
    requires c.Valid() && db !in c.Repr && db.healthy
    modifies c.recording, c.transcription, c.liveCaptions, db
    ensures db.data == old(db.data).(jobs := BotReconnects(old(c.JobsValue()), old(db.data).jobs, prevConnID, connID))
  {
    if c.recording != null && c.recording.botConnID == prevConnID {
      c.recording.botConnID := connID;
      var _ := db.UpdateCallJob(c.recording.Value());
    } else if c.transcription != null && c.transcription.botConnID == prevConnID {
      c.transcription.botConnID := connID;
      var _ := db.UpdateCallJob(c.transcription.Value());
      if c.liveCaptions != null && c.liveCaptions.botConnID == prevConnID {
        c.liveCaptions.botConnID := connID;
        var _ := db.UpdateCallJob(c.liveCaptions.Value());
      }
    }
  }

  /** startRecordingJob after the lock was retaken and the state `c` read again. The flag says whether it goes on. */
  method RecordingRan(c: LiveCall, db: Database, res: RunResult, now: nat) returns (goesOn: bool)
    requires c.Valid() && db !in c.Repr && db.healthy
    modifies c.recording, db
    ensures var (rows, on) := FinishRecording(old(c.JobsValue()), old(db.data).jobs, res, now);
            db.data == old(db.data).(jobs := rows) && goesOn == on
  {
    if c.recording == null { return false; }
    match res
    case Failed(e) =>
      c.recording.endAt, c.recording.err := now, e;
      var _ := db.UpdateCallJob(c.recording.Value());
      return false;
    case Ran(id) =>
      if c.recording.jobID != NONE { return false; }
      c.recording.jobID := id;
      var _ := db.UpdateCallJob(c.recording.Value());
      return true;
  }

  /** startTranscribingJob after the lock was retaken. */
  method TranscribingRan(c: LiveCall, db: Database, captionsOn: bool, res: RunResult, now: nat)
    requires c.Valid() && db !in c.Repr && db.healthy
    modifies c.transcription, c.liveCaptions, db
    ensures db.data == old(db.data).(jobs := FinishTranscribing(old(c.JobsValue()), old(db.data).jobs, captionsOn, res, now))
  {
    if c.transcription == null { return; }
    var captions := if captionsOn then c.liveCaptions else null;
    match res
    case Failed(e) =>
      c.transcription.endAt, c.transcription.err := now, e;
      var _ := db.UpdateCallJob(c.transcription.Value());
      if captions != null {
        captions.endAt := now;
        var _ := db.UpdateCallJob(captions.Value());
      }
    case Ran(id) =>
      if c.transcription.jobID != NONE { return; }
      c.transcription.jobID := id;
      var _ := db.UpdateCallJob(c.transcription.Value());
      if captions != null {
        captions.jobID := id;
        var _ := db.UpdateCallJob(captions.Value());
      }
  }

  /** recJobTimeoutChecker. `fails` are the jobs the service refuses to stop, here and below: no row depends on them. */
  method RecordingTimedOut(c: LiveCall, db: Database, jobID: ID, fails: set<ID>, now: nat)
    requires c.Valid() && db !in c.Repr && db.healthy && now > 0
    modifies c.recording, c.transcription, c.liveCaptions, db
    ensures db.data == old(db.data).(jobs := RecordingTimeout(old(c.JobsValue()), old(db.data).jobs, jobID, now))
  {
    if c.recording == null || c.recording.startAt != 0 || c.recording.jobID != jobID { return; }
    c.recording.err, c.recording.endAt := REC_TIMEOUT, now;
    var _ := db.UpdateCallJob(c.recording.Value());
    if c.transcription != null && c.transcription.endAt == 0 {
      var _ := StopTranscribingJob(c, db, fails, now);
    }
  }

  /** transcriptionJobTimeoutChecker. The captions job is ended in memory, but it is the transcription that is written
      a second time. */
  method TranscribingTimedOut(c: LiveCall, db: Database, jobID: ID, captionsOn: bool, fails: set<ID>, now: nat)
    requires c.Valid() && db !in c.Repr && db.healthy && now > 0
    modifies c.recording, c.transcription, c.liveCaptions, db
    ensures db.data == old(db.data).(jobs := TranscriptionTimeout(old(c.JobsValue()), old(db.data).jobs, jobID, captionsOn, now))
  {
    if c.transcription == null || c.transcription.startAt != 0 || c.transcription.jobID != jobID { return; }
    c.transcription.endAt, c.transcription.err := now, TR_TIMEOUT;
    var _ := db.UpdateCallJob(c.transcription.Value());
    if captionsOn && c.liveCaptions != null {
      c.liveCaptions.endAt := now;
      var _ := db.UpdateCallJob(c.transcription.Value());
    }
    if c.recording != null && c.recording.endAt == 0 {
      var _ := StopRecordingJob(c, db, fails, now);
    }
  }

  /** handleBotPostJobsStatus: a refused report changes nothing in the database. */
  method PostJobsStatus(c: LiveCall, db: Database, t: JobType, rowID: ID, status: BotStatus, captionsOn: bool, fails: set<ID>, now: nat) returns (ok: bool)
    requires c.Valid() && db !in c.Repr && db.healthy && now > 0
    modifies c.recording, c.transcription, c.liveCaptions, db
    ensures var r := BotReports(old(c.JobsValue()), old(db.data).jobs, t, rowID, status, captionsOn, now);
            && (ok <==> r.Some?)
            && db.data == if ok then old(db.data).(jobs := r.value) else old(db.data)
  {
    if t == Captioning { return false; }
    var jb := if t == Recording then c.recording else c.transcription;
    var captions := if t == Transcribing && captionsOn then c.liveCaptions else null;
    if jb == null || jb.id != rowID { return false; }
    match status {
      case JobFailed(e) =>
        jb.endAt, jb.err := now, e;
        if t == Recording && c.transcription != null {
          var _ := StopTranscribingJob(c, db, fails, now);
        } else if t == Transcribing && c.recording != null {
          var _ := StopRecordingJob(c, db, fails, now);
        }
      case Started =>
        if jb.endAt > 0 || jb.startAt > 0 { return false; }
        jb.startAt := now;
        if captions != null {
          captions.startAt := now;
          var _ := db.UpdateCallJob(captions.Value());
        }
      case Unsupported => return false;
    }
    var _ := db.UpdateCallJob(jb.Value());
    return true;
  }
}
