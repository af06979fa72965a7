/** What every job operation does to the job table, whatever the interleaving: rows are only added for a type
    that has no running job, an ended job stays ended, and a recording's or transcription's job ID is written once. */
module JobSafety {
  import opened CallModel
  import opened CallStore
  import opened CallJobs

  /** A job operation on a channel whose active call has been read under the lock. RecReturns and TrReturns are
      the continuations after the call to the job service, which runs unlocked. */
  datatype JobStep =
    | StartRec(userID: ID, rowID: ID, now: nat)
    | RecReturns(userID: ID, res: RunResult, transcribe: Option<ID>, captionsID: Option<ID>, now: nat)
    | TrReturns(captionsOn: bool, res: RunResult, now: nat)
    | StopRec(userID: ID, now: nat)
    | RecTimeout(jobID: ID, now: nat)
    | TrTimeout(jobID: ID, captionsOn: bool, now: nat)
    | Reports(t: JobType, rowID: ID, status: BotStatus, captionsOn: bool, now: nat)
    | Reconnects(prevConnID: ID, connID: ID)

  /** The table after a job step; `rec` and `tr` count the goroutines inside the unlocked gaps. */
  datatype JobTable = JobTable(rows: map<ID, Job>, rec: nat, tr: nat)

  predicate JobEnabled(t: JobTable, s: JobStep) {
    match s
    case StartRec(_, rowID, now) => now > 0 && rowID != NONE && rowID !in t.rows
    case RecReturns(_, _, transcribe, captionsID, now) =>
      && now > 0 && t.rec > 0
      && (transcribe.Some? ==> transcribe.value != NONE && transcribe.value !in t.rows)
      && (captionsID.Some? ==> captionsID.value != NONE && captionsID.value !in t.rows)
      && (transcribe.Some? && captionsID.Some? ==> transcribe.value != captionsID.value)
    case TrReturns(_, _, now) => now > 0 && t.tr > 0
    case StopRec(_, now) => now > 0
    case RecTimeout(_, now) => now > 0
    case TrTimeout(_, _, now) => now > 0
    case Reports(_, _, _, _, now) => now > 0
    case Reconnects(_, _) => true
  }

  function RunJobStep(t: JobTable, call: Call, j: Jobs, s: JobStep): JobTable
    requires JobEnabled(t, s)
  {
    match s
    case StartRec(userID, rowID, now) =>
      if userID != call.HostID() then t
      else (match BeginRecording(j, t.rows, call.id, rowID, userID, now)
            case None => t
            case Some(rows) => t.(rows := rows, rec := t.rec + 1))
    case RecReturns(userID, res, transcribe, captionsID, now) =>
      var (rows, goesOn) := FinishRecording(j, t.rows, res, now);
      var t1 := t.(rows := rows, rec := t.rec - 1);
      if !goesOn || transcribe.None? then t1
      else (match BeginTranscribing(j, rows, call.id, transcribe.value, captionsID, userID, now)
            case None => t1
            case Some(rows2) => t1.(rows := rows2, tr := t1.tr + 1))
    case TrReturns(captionsOn, res, now) => t.(rows := FinishTranscribing(j, t.rows, captionsOn, res, now), tr := t.tr - 1)
    case StopRec(userID, now) =>
      if userID != call.HostID() || !Running(j.recording) then t else t.(rows := StopRecording(j, t.rows, now).rows)
    case RecTimeout(jobID, now) => t.(rows := RecordingTimeout(j, t.rows, jobID, now))
    case TrTimeout(jobID, captionsOn, now) => t.(rows := TranscriptionTimeout(j, t.rows, jobID, captionsOn, now))
    case Reports(jt, rowID, status, captionsOn, now) =>
      (match BotReports(j, t.rows, jt, rowID, status, captionsOn, now)
       case None => t
       case Some(rows) => t.(rows := rows))
    case Reconnects(prev, conn) => t.(rows := BotReconnects(j, t.rows, prev, conn))
  }

  // ----- what holds between any two states of the table -----

  ghost predicate RowEvolves(a: Job, b: Job) {
    && b.id == a.id && b.callID == a.callID && b.jtype == a.jtype
    && (a.endAt != 0 ==> b.endAt != 0)
    && (a.jtype != Captioning && a.jobID != NONE ==> b.jobID == a.jobID)
  }

  /** No row disappears, no ended job runs again, no recording or transcription job ID is overwritten. */
  ghost predicate Evolves(rows: map<ID, Job>, rows': map<ID, Job>) {
    forall j :: j in rows ==> j in rows' && RowEvolves(rows[j], rows'[j])
  }

  ghost predicate SameKeys(rows: map<ID, Job>, rows': map<ID, Job>) {
    forall j :: j in rows' ==> j in rows
  }

  /** The running jobs of each recorded or transcribed call are unique. */
  ghost predicate OneOfEach(rows: map<ID, Job>) {
    forall c :: UniqueJob(rows, c, Recording) && UniqueJob(rows, c, Transcribing)
  }

  /** Each job in memory is the table's row. */
  ghost predicate Backed(j: Jobs, rows: map<ID, Job>) {
    && (j.recording.Some? ==> RowOf(j.recording.value, rows, Recording))
    && (j.transcription.Some? ==> RowOf(j.transcription.value, rows, Transcribing))
    && (j.liveCaptions.Some? ==> RowOf(j.liveCaptions.value, rows, Captioning))
  }

  ghost predicate RowOf(x: Job, rows: map<ID, Job>, t: JobType) {
    x.id in rows && rows[x.id] == x && x.jtype == t
  }

  lemma JobsOfBacked(rows: map<ID, Job>, callID: ID)
    requires JobsKeyed(rows)
    ensures Backed(JobsOf(rows, callID), rows) && DistinctIDs(JobsOf(rows, callID))
    ensures forall x :: JobsOf(rows, callID).recording == Some(x) ==> x.endAt == 0 && x.callID == callID
    ensures forall x :: JobsOf(rows, callID).transcription == Some(x) ==> x.endAt == 0 && x.callID == callID
    ensures forall x :: JobsOf(rows, callID).liveCaptions == Some(x) ==> x.endAt == 0 && x.callID == callID
  {
    ActiveJobFound(rows, callID, Recording);
    ActiveJobFound(rows, callID, Transcribing);
    ActiveJobFound(rows, callID, Captioning);
  }

  /** From a table to a later one with the same rows, the jobs in memory still being rows of the table. */
  ghost predicate StageOK(d: JobsDb, r: JobsDb) {
    Evolves(d.rows, r.rows) && SameKeys(d.rows, r.rows) && Backed(r.jobs, r.rows) && DistinctIDs(r.jobs)
  }

  lemma StagesCompose(d: JobsDb, r: JobsDb, q: JobsDb)
    requires StageOK(d, r) && StageOK(r, q)
    ensures StageOK(d, q)
  {
    forall j | j in d.rows ensures RowEvolves(d.rows[j], q.rows[j]) {
      assert RowEvolves(d.rows[j], r.rows[j]) && RowEvolves(r.rows[j], q.rows[j]);
    }
  }

  lemma EndRecordingOK(d: JobsDb, now: nat)
    requires Backed(d.jobs, d.rows) && DistinctIDs(d.jobs) && now > 0 && d.jobs.recording.Some?
    ensures var rec := d.jobs.recording.value.(endAt := now);
            StageOK(d, JobsDb(d.jobs.(recording := Some(rec)), UpdateJob(d.rows, rec)))
  {
  }

  lemma EndTranscriptionOK(d: JobsDb, now: nat)
    requires Backed(d.jobs, d.rows) && DistinctIDs(d.jobs) && now > 0 && d.jobs.transcription.Some?
    ensures var tr := d.jobs.transcription.value.(endAt := now);
            StageOK(d, JobsDb(d.jobs.(transcription := Some(tr)), UpdateJob(d.rows, tr)))
  {
  }

  lemma EndCaptionsOK(d: JobsDb, now: nat)
    requires Backed(d.jobs, d.rows) && DistinctIDs(d.jobs) && now > 0 && d.jobs.liveCaptions.Some?
    ensures var lc := d.jobs.liveCaptions.value.(endAt := now);
            StageOK(d, JobsDb(d.jobs.(liveCaptions := Some(lc)), UpdateJob(d.rows, lc)))
  {
  }

  lemma ShutDownOK(d: JobsDb, now: nat)
    requires Backed(d.jobs, d.rows) && DistinctIDs(d.jobs) && now > 0
    ensures StageOK(d, JobsDb(ShutDown(d.jobs, now), ShutDownRows(d.jobs, d.rows, now)))
  {
    var e := d;
    if Running(d.jobs.recording) {
      EndRecordingOK(e, now);
      e := JobsDb(e.jobs.(recording := Ended(d.jobs.recording, now)), UpdateJob(e.rows, Ended(d.jobs.recording, now).value));
    }
    if Running(d.jobs.transcription) {
      EndTranscriptionOK(e, now);
      var e1 := JobsDb(e.jobs.(transcription := Ended(d.jobs.transcription, now)), UpdateJob(e.rows, Ended(d.jobs.transcription, now).value));
      StagesCompose(d, e, e1);
      if d.jobs.liveCaptions.Some? {
        EndCaptionsOK(e1, now);
        var lc := d.jobs.liveCaptions.value.(endAt := now);
        StagesCompose(d, e1, JobsDb(e1.jobs.(liveCaptions := Some(lc)), UpdateJob(e1.rows, lc)));
      }
    }
  }

  lemma StopRecordingOK(d: JobsDb, now: nat)
    requires Backed(d.jobs, d.rows) && DistinctIDs(d.jobs) && now > 0 && Running(d.jobs.recording)
    ensures StageOK(d, StopRecording(d.jobs, d.rows, now))
  {
    CoupledShutdown(d.jobs, d.rows, now);
    ShutDownOK(d, now);
  }

  lemma StopTranscribingOK(d: JobsDb, now: nat)
    requires Backed(d.jobs, d.rows) && DistinctIDs(d.jobs) && now > 0 && Running(d.jobs.transcription)
    ensures StageOK(d, StopTranscribing(d.jobs, d.rows, now))
  {
    CoupledShutdown(d.jobs, d.rows, now);
    ShutDownOK(d, now);
  }

  lemma BotJoinsOK(d: JobsDb, jobID: ID, connID: ID)
    requires Backed(d.jobs, d.rows) && DistinctIDs(d.jobs)
    ensures var r := BotJoins(d.jobs, d.rows, jobID, connID);
            r.Some? ==> StageOK(d, r.value)
  {
  }

  lemma BotLeavesOK(d: JobsDb, originalConnID: ID, connID: ID, now: nat)
    requires Backed(d.jobs, d.rows) && DistinctIDs(d.jobs) && now > 0
    ensures StageOK(d, BotLeaves(d.jobs, d.rows, originalConnID, connID, now))
  {
    var a := RecordingBotLeaves(d, originalConnID, now);
    var b := TranscribingBotLeaves(a, originalConnID, now);
    RecordingBotLeavesOK(d, originalConnID, now);
    TranscribingBotLeavesOK(a, originalConnID, now);
    StagesCompose(d, a, b);
    if Running(b.jobs.liveCaptions) { EndCaptionsOK(b, now); }
    StagesCompose(d, b, CaptionsBotLeaves(b, connID, now));
  }

  lemma RecordingBotLeavesOK(d: JobsDb, connID: ID, now: nat)
    requires Backed(d.jobs, d.rows) && DistinctIDs(d.jobs) && now > 0
    ensures StageOK(d, RecordingBotLeaves(d, connID, now))
  {
    if Running(d.jobs.recording) { StopRecordingOK(d, now); }
  }

  lemma TranscribingBotLeavesOK(d: JobsDb, connID: ID, now: nat)
    requires Backed(d.jobs, d.rows) && DistinctIDs(d.jobs) && now > 0
    ensures StageOK(d, TranscribingBotLeaves(d, connID, now))
  {
    if Running(d.jobs.transcription) {
      EndTranscriptionOK(d, now);
      var tr := d.jobs.transcription.value.(endAt := now);
      var e := JobsDb(d.jobs.(transcription := Some(tr)), UpdateJob(d.rows, tr));
      if Running(e.jobs.recording) {
        StopRecordingOK(e, now);
        StagesCompose(d, e, StopRecording(e.jobs, e.rows, now));
      }
    }
  }

  ghost predicate TableOK(rows: map<ID, Job>, rows': map<ID, Job>) {
    Evolves(rows, rows') && SameKeys(rows, rows')
  }

  lemma TableOKCompose(rows: map<ID, Job>, rows1: map<ID, Job>, rows2: map<ID, Job>)
    requires TableOK(rows, rows1) && TableOK(rows1, rows2)
    ensures TableOK(rows, rows2)
  {
    forall j | j in rows ensures RowEvolves(rows[j], rows2[j]) {
      assert RowEvolves(rows[j], rows1[j]) && RowEvolves(rows1[j], rows2[j]);
    }
  }

  lemma WriteOK(rows: map<ID, Job>, x: Job)
    requires x.id in rows ==> RowEvolves(rows[x.id], x)
    ensures TableOK(rows, UpdateJob(rows, x))
  {
  }

  lemma RecordingTimeoutOK(d: JobsDb, jobID: ID, now: nat)
    requires Backed(d.jobs, d.rows) && DistinctIDs(d.jobs) && now > 0
    ensures TableOK(d.rows, RecordingTimeout(d.jobs, d.rows, jobID, now))
  {
    if d.jobs.recording.Some? {
      var rec := d.jobs.recording.value.(endAt := now, err := REC_TIMEOUT);
      var e := JobsDb(d.jobs.(recording := Some(rec)), UpdateJob(d.rows, rec));
      WriteOK(d.rows, rec);
      if Running(e.jobs.transcription) {
        StopTranscribingOK(e, now);
        TableOKCompose(d.rows, e.rows, StopTranscribing(e.jobs, e.rows, now).rows);
      }
    }
  }

  lemma TranscriptionTimeoutOK(d: JobsDb, jobID: ID, captionsOn: bool, now: nat)
    requires Backed(d.jobs, d.rows) && DistinctIDs(d.jobs) && now > 0
    ensures TableOK(d.rows, TranscriptionTimeout(d.jobs, d.rows, jobID, captionsOn, now))
  {
    if d.jobs.transcription.Some? {
      var tr := d.jobs.transcription.value.(endAt := now, err := TR_TIMEOUT);
      WriteOK(d.rows, tr);
      if Running(d.jobs.recording) {
        var rec := d.jobs.recording.value.(endAt := now);
        WriteOK(UpdateJob(d.rows, tr), rec);
        TableOKCompose(d.rows, UpdateJob(d.rows, tr), UpdateJob(UpdateJob(d.rows, tr), rec));
      }
    }
  }

  /** A transcription that times out leaves its captions row running, so the next transcription's captions row is
      created beside it: captions are the one type of job that may run twice. */
  lemma TimeoutKeepsCaptions(d: JobsDb, jobID: ID, captionsOn: bool, now: nat, k: ID)
    requires Backed(d.jobs, d.rows) && DistinctIDs(d.jobs) && now > 0
    requires k in d.rows && d.rows[k].jtype == Captioning
    ensures k in TranscriptionTimeout(d.jobs, d.rows, jobID, captionsOn, now)
    ensures TranscriptionTimeout(d.jobs, d.rows, jobID, captionsOn, now)[k] == d.rows[k]
  {
    if d.jobs.transcription.Some? && Running(d.jobs.recording) {
      var tr := d.jobs.transcription.value.(endAt := now, err := TR_TIMEOUT);
      var j1 := d.jobs.(transcription := Some(tr));
      assert !Running(j1.transcription);
      assert UpdateJob(d.rows, tr)[k] == d.rows[k];
    }
  }

  lemma BotReportsOK(d: JobsDb, t: JobType, rowID: ID, status: BotStatus, captionsOn: bool, now: nat)
    requires Backed(d.jobs, d.rows) && DistinctIDs(d.jobs) && now > 0
    ensures var r := BotReports(d.jobs, d.rows, t, rowID, status, captionsOn, now); r.Some? ==> TableOK(d.rows, r.value)
  {
    var r := BotReports(d.jobs, d.rows, t, rowID, status, captionsOn, now);
    if r.Some? {
      var jb := if t == Recording then d.jobs.recording.value else d.jobs.transcription.value;
      match status {
        case JobFailed(e) => BotFailureOK(d, t, jb.(endAt := now, err := e), now);
        case Started =>
          var rows1 := if t == Transcribing && captionsOn && d.jobs.liveCaptions.Some? then UpdateJob(d.rows, d.jobs.liveCaptions.value.(startAt := now)) else d.rows;
          if rows1 != d.rows { WriteOK(d.rows, d.jobs.liveCaptions.value.(startAt := now)); }
          WriteOK(rows1, jb.(startAt := now));
          TableOKCompose(d.rows, rows1, r.value);
        case Unsupported =>
      }
    }
  }

  lemma BotFailureOK(d: JobsDb, t: JobType, ended: Job, now: nat)
    requires Backed(d.jobs, d.rows) && DistinctIDs(d.jobs) && now > 0 && ended.endAt == now
    requires t == Recording ==> d.jobs.recording.Some? && ended == d.jobs.recording.value.(endAt := now, err := ended.err)
    requires t == Transcribing ==> d.jobs.transcription.Some? && ended == d.jobs.transcription.value.(endAt := now, err := ended.err)
    requires t != Captioning
    ensures var j1 := if t == Recording then d.jobs.(recording := Some(ended)) else d.jobs.(transcription := Some(ended));
            var rows1 :=
              if t == Recording && Running(j1.transcription) then StopTranscribing(j1, d.rows, now).rows
              else if t == Transcribing && Running(j1.recording) then StopRecording(j1, d.rows, now).rows
              else d.rows;
            TableOK(d.rows, UpdateJob(rows1, ended))
  {
    if t == Recording && Running(d.jobs.transcription) {
      var tr := d.jobs.transcription.value.(endAt := now);
      WriteOK(d.rows, tr);
      var rows1 := UpdateJob(d.rows, tr);
      if d.jobs.liveCaptions.Some? {
        var lc := d.jobs.liveCaptions.value.(endAt := now);
        WriteOK(rows1, lc);
        TableOKCompose(d.rows, rows1, UpdateJob(rows1, lc));
        rows1 := UpdateJob(rows1, lc);
      }
      WriteOK(rows1, ended);
      TableOKCompose(d.rows, rows1, UpdateJob(rows1, ended));
    } else if t == Transcribing && Running(d.jobs.recording) {
      var rec := d.jobs.recording.value.(endAt := now);
      WriteOK(d.rows, rec);
      WriteOK(UpdateJob(d.rows, rec), ended);
      TableOKCompose(d.rows, UpdateJob(d.rows, rec), UpdateJob(UpdateJob(d.rows, rec), ended));
    } else {
      WriteOK(d.rows, ended);
    }
  }

  lemma FinishOK(d: JobsDb, captionsOn: bool, res: RunResult, now: nat)
    requires Backed(d.jobs, d.rows) && DistinctIDs(d.jobs) && now > 0
    ensures TableOK(d.rows, FinishRecording(d.jobs, d.rows, res, now).0)
    ensures TableOK(d.rows, FinishTranscribing(d.jobs, d.rows, captionsOn, res, now))
  {
  }

  lemma ReconnectsOK(d: JobsDb, prev: ID, conn: ID)
    requires Backed(d.jobs, d.rows) && DistinctIDs(d.jobs)
    ensures TableOK(d.rows, BotReconnects(d.jobs, d.rows, prev, conn))
  {
  }

  /** Over one job step of any kind, including the two halves around the unlocked gap, the table evolves and
      keeps at most one running recording and one running transcription per call. */
  lemma JobStepSafe(t: JobTable, call: Call, s: JobStep)
    requires JobsKeyed(t.rows) && OneOfEach(t.rows) && JobEnabled(t, s)
    ensures var t' := RunJobStep(t, call, JobsOf(t.rows, call.id), s);
            Evolves(t.rows, t'.rows) && JobsKeyed(t'.rows) && OneOfEach(t'.rows)
  {
    var j := JobsOf(t.rows, call.id);
    var d := JobsDb(j, t.rows);
    JobsOfBacked(t.rows, call.id);
    var t' := RunJobStep(t, call, j, s);
    if s.StartRec? {
      StartRecSafe(t, call, s);
    } else if s.RecReturns? {
      RecReturnsSafe(t, call, s);
    } else {
      match s {
        case TrReturns(captionsOn, res, now) => FinishOK(d, captionsOn, res, now);
        case StopRec(_, now) => if Running(j.recording) { StopRecordingOK(d, now); }
        case RecTimeout(jobID, now) => RecordingTimeoutOK(d, jobID, now);
        case TrTimeout(jobID, captionsOn, now) => TranscriptionTimeoutOK(d, jobID, captionsOn, now);
        case Reports(jt, rowID, status, captionsOn, now) => BotReportsOK(d, jt, rowID, status, captionsOn, now);
        case Reconnects(prev, conn) => ReconnectsOK(d, prev, conn);
      }
      EvolvesKeeps(t.rows, t'.rows);
    }
  }

  lemma StartRecSafe(t: JobTable, call: Call, s: JobStep)
    requires JobsKeyed(t.rows) && OneOfEach(t.rows) && JobEnabled(t, s) && s.StartRec?
    ensures var t' := RunJobStep(t, call, JobsOf(t.rows, call.id), s);
            Evolves(t.rows, t'.rows) && JobsKeyed(t'.rows) && OneOfEach(t'.rows)
  {
    ActiveJobFound(t.rows, call.id, Recording);
    if s.userID == call.HostID() && !Running(JobsOf(t.rows, call.id).recording) {
      InsertKeeps(t.rows, NewJob(s.rowID, call.id, Recording, s.userID, s.now));
    }
  }

  /** The second half of a start acts on whatever recording is running when the lock is retaken. */
  lemma RecReturnsSafe(t: JobTable, call: Call, s: JobStep)
    requires JobsKeyed(t.rows) && OneOfEach(t.rows) && JobEnabled(t, s) && s.RecReturns?
    ensures var t' := RunJobStep(t, call, JobsOf(t.rows, call.id), s);
            Evolves(t.rows, t'.rows) && JobsKeyed(t'.rows) && OneOfEach(t'.rows)
  {
    var j := JobsOf(t.rows, call.id);
    JobsOfBacked(t.rows, call.id);
    var (rows, goesOn) := FinishRecording(j, t.rows, s.res, s.now);
    FinishOK(JobsDb(j, t.rows), false, s.res, s.now);
    EvolvesKeeps(t.rows, rows);
    if goesOn && s.transcribe.Some? && !Running(j.transcription) {
      ActiveJobFound(t.rows, call.id, Transcribing);
      var tr := NewJob(s.transcribe.value, call.id, Transcribing, s.userID, s.now);
      InsertKeeps(rows, tr);
      EvolvesTrans(t.rows, rows, InsertJob(rows, tr));
      if s.captionsID.Some? {
        var lc := NewJob(s.captionsID.value, call.id, Captioning, s.userID, s.now);
        InsertKeeps(InsertJob(rows, tr), lc);
        EvolvesTrans(t.rows, InsertJob(rows, tr), InsertJob(InsertJob(rows, tr), lc));
      }
    }
  }

  lemma EvolvesTrans(rows: map<ID, Job>, rows1: map<ID, Job>, rows2: map<ID, Job>)
    requires Evolves(rows, rows1) && Evolves(rows1, rows2)
    ensures Evolves(rows, rows2)
  {
    forall j | j in rows ensures RowEvolves(rows[j], rows2[j]) {
      assert RowEvolves(rows[j], rows1[j]) && RowEvolves(rows1[j], rows2[j]);
    }
  }

  lemma EvolvesKeeps(rows: map<ID, Job>, rows': map<ID, Job>)
    requires JobsKeyed(rows) && OneOfEach(rows) && Evolves(rows, rows') && SameKeys(rows, rows')
    ensures JobsKeyed(rows') && OneOfEach(rows')
    ensures forall c, t, j :: IsActiveJob(rows', c, t, j) ==> IsActiveJob(rows, c, t, j)
  {
    forall c, t, j | IsActiveJob(rows', c, t, j) ensures IsActiveJob(rows, c, t, j) {
      assert RowEvolves(rows[j], rows'[j]);
    }
    forall c ensures UniqueJob(rows', c, Recording) && UniqueJob(rows', c, Transcribing) {
      assert UniqueJob(rows, c, Recording) && UniqueJob(rows, c, Transcribing);
    }
  }

  lemma InsertKeeps(rows: map<ID, Job>, x: Job)
    requires JobsKeyed(rows) && OneOfEach(rows) && x.id !in rows
    requires x.jtype != Captioning ==> forall k :: !IsActiveJob(rows, x.callID, x.jtype, k)
    ensures var rows' := InsertJob(rows, x); Evolves(rows, rows') && JobsKeyed(rows') && OneOfEach(rows')
  {
    var rows' := InsertJob(rows, x);
    forall c ensures UniqueJob(rows', c, Recording) && UniqueJob(rows', c, Transcribing) {
      assert UniqueJob(rows, c, Recording) && UniqueJob(rows, c, Transcribing);
      assert forall t, k :: k != x.id && IsActiveJob(rows', c, t, k) ==> IsActiveJob(rows, c, t, k);
    }
  }
}
