/** Recording, transcription and captions jobs (server/recording_api.go, server/transcription_api.go,
    server/bot_api.go, and the job parts of server/session.go).

    Every function takes the jobs of the call state that was read under the call lock together with the job
    table, and returns both after the operation. */
module CallJobs {
  import opened CallModel
  import opened CallStore

  datatype JobsDb = JobsDb(jobs: Jobs, rows: map<ID, Job>)

  function ActiveCount(j: Jobs): nat {
    (if Running(j.recording) then 1 else 0) + (if Running(j.transcription) then 1 else 0)
  }

  // ----- coupled shutdown -----

  /** stopRecordingJob, once past its check that a recording is running. */
  function StopRecording(j: Jobs, rows: map<ID, Job>, now: nat): JobsDb
    requires Running(j.recording) && now > 0
    decreases ActiveCount(j)
  {
    var rec := j.recording.value.(endAt := now);
    var j1 := j.(recording := Some(rec));
    var rows1 := UpdateJob(rows, rec);
    if Running(j1.transcription) then StopTranscribing(j1, rows1, now) else JobsDb(j1, rows1)
  }

  /** stopTranscribingJob, once past its check that a transcription is running. */
  function StopTranscribing(j: Jobs, rows: map<ID, Job>, now: nat): JobsDb
    requires Running(j.transcription) && now > 0
    decreases ActiveCount(j)
  {
    var tr := j.transcription.value.(endAt := now);
    var j1 := j.(transcription := Some(tr));
    var rows1 := UpdateJob(rows, tr);
    var lc := match j1.liveCaptions { case None => None case Some(l) => Some(l.(endAt := now)) };
    var j2 := j1.(liveCaptions := lc);
    var rows2 := if lc.Some? then UpdateJob(rows1, lc.value) else rows1;
    if Running(j2.recording) then StopRecording(j2, rows2, now) else JobsDb(j2, rows2)
  }

  function Ended(j: Option<Job>, now: nat): Option<Job> {
    if Running(j) then Some(j.value.(endAt := now)) else j
  }

  /** What a coupled shutdown leaves in memory, said without recursion: both jobs ended; captions ended
      exactly when a transcription was running. */
  function ShutDown(j: Jobs, now: nat): Jobs {
    Jobs(Ended(j.recording, now), Ended(j.transcription, now),
         if Running(j.transcription) && j.liveCaptions.Some? then Some(j.liveCaptions.value.(endAt := now)) else j.liveCaptions)
  }

  /** What it leaves in the table: each job that changed in memory is written, nothing else is. */
  function ShutDownRows(j: Jobs, rows: map<ID, Job>, now: nat): map<ID, Job> {
    var s := ShutDown(j, now);
    var rows1 := if Running(j.recording) then UpdateJob(rows, s.recording.value) else rows;
    var rows2 := if Running(j.transcription) then UpdateJob(rows1, s.transcription.value) else rows1;
    if Running(j.transcription) && s.liveCaptions.Some? then UpdateJob(rows2, s.liveCaptions.value) else rows2
  }

  ghost predicate DistinctIDs(j: Jobs) {
    && (j.recording.Some? && j.transcription.Some? ==> j.recording.value.id != j.transcription.value.id)
    && (j.recording.Some? && j.liveCaptions.Some? ==> j.recording.value.id != j.liveCaptions.value.id)
    && (j.transcription.Some? && j.liveCaptions.Some? ==> j.transcription.value.id != j.liveCaptions.value.id)
  }

  /** Whichever of the two jobs is stopped first, the mutual recursion ends in the same place. */
  lemma CoupledShutdown(j: Jobs, rows: map<ID, Job>, now: nat)
    requires DistinctIDs(j) && now > 0
    ensures Running(j.recording) ==> StopRecording(j, rows, now) == JobsDb(ShutDown(j, now), ShutDownRows(j, rows, now))
    ensures Running(j.transcription) ==> StopTranscribing(j, rows, now) == JobsDb(ShutDown(j, now), ShutDownRows(j, rows, now))
  {
    if Running(j.transcription) && Running(j.recording) {
      var rec := j.recording.value.(endAt := now);
      var tr := j.transcription.value.(endAt := now);
      assert UpdateJob(UpdateJob(rows, rec), tr) == UpdateJob(UpdateJob(rows, tr), rec);
      if j.liveCaptions.Some? {
        var lc := j.liveCaptions.value.(endAt := now);
        assert UpdateJob(UpdateJob(UpdateJob(rows, rec), tr), lc) == UpdateJob(UpdateJob(UpdateJob(rows, tr), lc), rec);
      }
    }
  }

  /** The two stop operations when the job service refuses to stop the jobs in `fails`. A refusal leaves an error on the
      object in memory; refused, stopTranscribingJob returns before it reaches the recording. */
  function TryStopRecording(j: Jobs, rows: map<ID, Job>, fails: set<ID>, now: nat): JobsDb
    requires Running(j.recording) && now > 0
    decreases ActiveCount(j)
  {
    var rec := j.recording.value.(endAt := now);
    var j1 := j.(recording := Some(rec));
    var rows1 := UpdateJob(rows, rec);
    var d := if Running(j1.transcription) then TryStopTranscribing(j1, rows1, fails, now) else JobsDb(j1, rows1);
    if rec.id in fails then d.(jobs := d.jobs.(recording := Some(rec.(err := REC_REFUSED)))) else d
  }

  function TryStopTranscribing(j: Jobs, rows: map<ID, Job>, fails: set<ID>, now: nat): JobsDb
    requires Running(j.transcription) && now > 0
    decreases ActiveCount(j)
  {
    var tr := j.transcription.value.(endAt := now);
    var lc := match j.liveCaptions { case None => None case Some(l) => Some(l.(endAt := now)) };
    var j1 := j.(transcription := Some(tr), liveCaptions := lc);
    var rows1 := UpdateJob(rows, tr);
    var rows2 := if lc.Some? then UpdateJob(rows1, lc.value) else rows1;
    if tr.id in fails then JobsDb(j1.(transcription := Some(tr.(err := TR_REFUSED))), rows2)
    else if Running(j1.recording) then TryStopRecording(j1, rows2, fails, now)
    else JobsDb(j1, rows2)
  }

  const REC_REFUSED := "failed to stop recording job"
  const TR_REFUSED := "failed to stop transcription job"

  /** Whatever the service refuses, stopping the recording writes the same rows, and so does stopping a transcription whose
      recording has ended, which is how every other operation stops it. Asked to stop the transcription first, a
      refusing service leaves a running recording running. */
  lemma RefusalsWriteTheSame(j: Jobs, rows: map<ID, Job>, fails: set<ID>, now: nat)
    requires now > 0
    ensures Running(j.recording) ==> TryStopRecording(j, rows, fails, now).rows == StopRecording(j, rows, now).rows
    ensures Running(j.transcription) && !Running(j.recording) ==>
              TryStopTranscribing(j, rows, fails, now).rows == StopTranscribing(j, rows, now).rows
    ensures Running(j.transcription) && Running(j.recording) ==>
              (Running(TryStopTranscribing(j, rows, fails, now).jobs.recording) <==> j.transcription.value.id in fails)
  {
  }

  function IDOf(j: Option<Job>, when: bool): set<ID> {
    if j.Some? && when then {j.value.id} else {}
  }

  /** The given rows ended, in place. */
  function EndRows(rows: map<ID, Job>, ids: set<ID>, now: nat): map<ID, Job> {
    map k | k in rows :: if k in ids then rows[k].(endAt := now) else rows[k]
  }

  // ----- the bot joining and leaving -----

  /** The bot may join only for a job of the call that has not started; joining registers its connection. */
  function BotJoins(j: Jobs, rows: map<ID, Job>, jobID: ID, connID: ID): Option<JobsDb> {
    if j.recording.Some? && j.recording.value.id == jobID && j.recording.value.startAt == 0 then
      var rec := j.recording.value.(botConnID := connID);
      Some(JobsDb(j.(recording := Some(rec)), UpdateJob(rows, rec)))
    else if j.transcription.Some? && j.transcription.value.id == jobID && j.transcription.value.startAt == 0 then
      var tr := j.transcription.value.(botConnID := connID);
      if j.liveCaptions.Some? && j.liveCaptions.value.startAt == 0 then
        var lc := j.liveCaptions.value.(botConnID := connID);
        Some(JobsDb(j.(transcription := Some(tr), liveCaptions := Some(lc)), UpdateJob(UpdateJob(rows, lc), tr)))
      else
        Some(JobsDb(j.(transcription := Some(tr)), UpdateJob(rows, tr)))
    else None
  }

  /** The recording's bot leaves: removeUserSession ends the recording and stops the transcription. */
  function RecordingBotLeaves(d: JobsDb, connID: ID, now: nat): JobsDb
    requires now > 0
  {
    if !Running(d.jobs.recording) || d.jobs.recording.value.botConnID != connID then d
    else
      var rec := d.jobs.recording.value.(endAt := now);
      var j1 := d.jobs.(recording := Some(rec));
      var rows1 := UpdateJob(d.rows, rec);
      if Running(j1.transcription) then StopTranscribing(j1, rows1, now) else JobsDb(j1, rows1)
  }

  /** The transcription's bot leaves: the transcription is ended here, so the recording stops without reaching
      back for the captions. */
  function TranscribingBotLeaves(d: JobsDb, connID: ID, now: nat): JobsDb
    requires now > 0
  {
    if !Running(d.jobs.transcription) || d.jobs.transcription.value.botConnID != connID then d
    else
      var tr := d.jobs.transcription.value.(endAt := now);
      var j1 := d.jobs.(transcription := Some(tr));
      var rows1 := UpdateJob(d.rows, tr);
      if Running(j1.recording) then StopRecording(j1, rows1, now) else JobsDb(j1, rows1)
  }

  function CaptionsBotLeaves(d: JobsDb, connID: ID, now: nat): JobsDb
    requires now > 0
  {
    if !Running(d.jobs.liveCaptions) || d.jobs.liveCaptions.value.botConnID != connID then d
    else
      var lc := d.jobs.liveCaptions.value.(endAt := now);
      JobsDb(d.jobs.(liveCaptions := Some(lc)), UpdateJob(d.rows, lc))
  }

  /** The job part of removeUserSession. Recording and transcription are matched on the session's original
      connection, captions on its current one. */
  function BotLeaves(j: Jobs, rows: map<ID, Job>, originalConnID: ID, connID: ID, now: nat): JobsDb
    requires now > 0
  {
    CaptionsBotLeaves(TranscribingBotLeaves(RecordingBotLeaves(JobsDb(j, rows), originalConnID, now), originalConnID, now), connID, now)
  }

  /** The same with a job service that refuses to stop the jobs in `fails`. */
  function TryBotLeaves(j: Jobs, rows: map<ID, Job>, fails: set<ID>, originalConnID: ID, connID: ID, now: nat): JobsDb
    requires now > 0
  {
    var d1 :=
      if !Running(j.recording) || j.recording.value.botConnID != originalConnID then JobsDb(j, rows)
      else
        var rec := j.recording.value.(endAt := now);
        var j1, rows1 := j.(recording := Some(rec)), UpdateJob(rows, rec);
        if Running(j1.transcription) then TryStopTranscribing(j1, rows1, fails, now) else JobsDb(j1, rows1);
    var d2 :=
      if !Running(d1.jobs.transcription) || d1.jobs.transcription.value.botConnID != originalConnID then d1
      else
        var tr := d1.jobs.transcription.value.(endAt := now);
        var j2, rows2 := d1.jobs.(transcription := Some(tr)), UpdateJob(d1.rows, tr);
        if Running(j2.recording) then TryStopRecording(j2, rows2, fails, now) else JobsDb(j2, rows2);
    CaptionsBotLeaves(d2, connID, now)
  }

  /** A leave, too, writes the same rows whatever the service refuses. */
  lemma RefusedLeaveWritesTheSame(j: Jobs, rows: map<ID, Job>, fails: set<ID>, originalConnID: ID, connID: ID, now: nat)
    requires now > 0
    ensures TryBotLeaves(j, rows, fails, originalConnID, connID, now).rows == BotLeaves(j, rows, originalConnID, connID, now).rows
  {
  }

  predicate RegisteredBot(j: Jobs, connID: ID) {
    || (Running(j.recording) && j.recording.value.botConnID == connID)
    || (Running(j.transcription) && j.transcription.value.botConnID == connID)
  }

  /** Removing the session of either running job's registered bot ends both jobs; any other session ends neither. */
  lemma BotLeavesEndsBoth(j: Jobs, rows: map<ID, Job>, originalConnID: ID, connID: ID, now: nat)
    requires DistinctIDs(j) && now > 0
    ensures var r := BotLeaves(j, rows, originalConnID, connID, now).jobs;
            && r.recording == (if RegisteredBot(j, originalConnID) then Ended(j.recording, now) else j.recording)
            && r.transcription == (if RegisteredBot(j, originalConnID) then Ended(j.transcription, now) else j.transcription)
            && (RegisteredBot(j, originalConnID) ==> !Running(r.recording) && !Running(r.transcription))
  {
  }

  // ----- starting, timing out, reporting -----

  function NewJob(id: ID, callID: ID, t: JobType, creatorID: ID, now: nat): Job {
    Job(id, callID, t, creatorID, now, 0, 0, NONE, NONE, "")
  }

  /** CreateCallJob: an insert, which fails on a row that is already there. */
  function InsertJob(rows: map<ID, Job>, job: Job): map<ID, Job> {
    if job.id in rows then rows else rows[job.id := job]
  }

  /** First half of startRecordingJob: create the row, then release the lock around the call to the job service. */
  function BeginRecording(j: Jobs, rows: map<ID, Job>, callID: ID, rowID: ID, userID: ID, now: nat): Option<map<ID, Job>> {
    if Running(j.recording) then None else Some(InsertJob(rows, NewJob(rowID, callID, Recording, userID, now)))
  }

  /** First half of startTranscribingJob; a captions row is created as well when captions are enabled. */
  function BeginTranscribing(j: Jobs, rows: map<ID, Job>, callID: ID, rowID: ID, captionsID: Option<ID>, userID: ID, now: nat): Option<map<ID, Job>> {
    if Running(j.transcription) || rowID == NONE then None
    else
      var rows1 := InsertJob(rows, NewJob(rowID, callID, Transcribing, userID, now));
      Some(if captionsID.Some? then InsertJob(rows1, NewJob(captionsID.value, callID, Captioning, userID, now)) else rows1)
  }

  /** What the job service answered: the service's own job ID, or an error. */
  datatype RunResult = Ran(jobID: ID) | Failed(error: string)

  /** Second half of startRecordingJob: the lock is retaken and the state read again, so `j` may hold another
      recording than the one created before, or none. The flag says whether the operation goes on. */
  function FinishRecording(j: Jobs, rows: map<ID, Job>, res: RunResult, now: nat): (map<ID, Job>, bool) {
    match j.recording
    case None => (rows, false)
    case Some(rec) =>
      match res
      case Failed(e) => (UpdateJob(rows, rec.(endAt := now, err := e)), false)
      case Ran(id) =>
        if rec.jobID != NONE then (rows, false) else (UpdateJob(rows, rec.(jobID := id)), true)
  }

  function FinishTranscribing(j: Jobs, rows: map<ID, Job>, captionsOn: bool, res: RunResult, now: nat): map<ID, Job> {
    match j.transcription
    case None => rows
    case Some(tr) =>
      var lc := if captionsOn then j.liveCaptions else None;
      match res
      case Failed(e) =>
        var rows1 := UpdateJob(rows, tr.(endAt := now, err := e));
        if lc.Some? then UpdateJob(rows1, lc.value.(endAt := now)) else rows1
      case Ran(id) =>
        if tr.jobID != NONE then rows
        else
          var rows1 := UpdateJob(rows, tr.(jobID := id));
          if lc.Some? then UpdateJob(rows1, lc.value.(jobID := id)) else rows1
  }

  const REC_TIMEOUT := "failed to start recording job: timed out waiting for bot to join call"
  const TR_TIMEOUT := "failed to start transcriber job: timed out waiting for bot to join call"

  /** recJobTimeoutChecker. */
  function RecordingTimeout(j: Jobs, rows: map<ID, Job>, jobID: ID, now: nat): map<ID, Job>
    requires now > 0
  {
    if j.recording.None? || j.recording.value.startAt != 0 || j.recording.value.jobID != jobID then rows
    else
      var rec := j.recording.value.(endAt := now, err := REC_TIMEOUT);
      var j1 := j.(recording := Some(rec));
      var rows1 := UpdateJob(rows, rec);
      if Running(j1.transcription) then StopTranscribing(j1, rows1, now).rows else rows1
  }

  /** transcriptionJobTimeoutChecker. It ends the captions job in memory, and then writes the transcription row
      a second time instead of the captions row. */
  function TranscriptionTimeout(j: Jobs, rows: map<ID, Job>, jobID: ID, captionsOn: bool, now: nat): map<ID, Job>
    requires now > 0
  {
    if j.transcription.None? || j.transcription.value.startAt != 0 || j.transcription.value.jobID != jobID then rows
    else
      var tr := j.transcription.value.(endAt := now, err := TR_TIMEOUT);
      var lc := if captionsOn && j.liveCaptions.Some? then Some(j.liveCaptions.value.(endAt := now)) else j.liveCaptions;
      var j1 := j.(transcription := Some(tr), liveCaptions := lc);
      var rows1 := UpdateJob(rows, tr);
      if Running(j1.recording) then StopRecording(j1, rows1, now).rows else rows1
  }

  datatype BotStatus = Started | JobFailed(error: string) | Unsupported

  /** handleBotPostJobsStatus: None is one of its error answers. */
  function BotReports(j: Jobs, rows: map<ID, Job>, t: JobType, rowID: ID, status: BotStatus, captionsOn: bool, now: nat): Option<map<ID, Job>>
    requires now > 0
  {
    if t == Captioning then None
    else
      var jb := if t == Recording then j.recording else j.transcription;
      if jb.None? || jb.value.id != rowID then None
      else match status
        case JobFailed(e) =>
          var ended := jb.value.(endAt := now, err := e);
          var j1 := if t == Recording then j.(recording := Some(ended)) else j.(transcription := Some(ended));
          var rows1 :=
            if t == Recording && Running(j1.transcription) then StopTranscribing(j1, rows, now).rows
            else if t == Transcribing && Running(j1.recording) then StopRecording(j1, rows, now).rows
            else rows;
          Some(UpdateJob(rows1, ended))
        case Started =>
          if jb.value.endAt > 0 || jb.value.startAt > 0 then None
          else
            var rows1 := if t == Transcribing && captionsOn && j.liveCaptions.Some? then UpdateJob(rows, j.liveCaptions.value.(startAt := now)) else rows;
            Some(UpdateJob(rows1, jb.value.(startAt := now)))
        case Unsupported => None
  }

  /** handleBotWSReconnect. */
  function BotReconnects(j: Jobs, rows: map<ID, Job>, prevConnID: ID, connID: ID): map<ID, Job> {
    if j.recording.Some? && j.recording.value.botConnID == prevConnID then
      UpdateJob(rows, j.recording.value.(botConnID := connID))
    else if j.transcription.Some? && j.transcription.value.botConnID == prevConnID then
      var rows1 := UpdateJob(rows, j.transcription.value.(botConnID := connID));
      if j.liveCaptions.Some? && j.liveCaptions.value.botConnID == prevConnID then
        UpdateJob(rows1, j.liveCaptions.value.(botConnID := connID))
      else rows1
    else rows
  }

  /** The job part of cleanCallState: every job the query returns is ended. */
  function EndAll(j: Jobs, rows: map<ID, Job>, now: nat): map<ID, Job> {
    var rows1 := if Running(j.recording) then UpdateJob(rows, j.recording.value.(endAt := now)) else rows;
    var rows2 := if Running(j.transcription) then UpdateJob(rows1, j.transcription.value.(endAt := now)) else rows1;
    if Running(j.liveCaptions) then UpdateJob(rows2, j.liveCaptions.value.(endAt := now)) else rows2
  }
}
